/** What one step does to every field of the state, handler by handler, in terms of the rows it finds. */
module CampaignLaws {
  import opened CampaignState
  import opened Wrappers

  // ---------- Notions ----------

  /** The process died inside a transaction: its intent is recorded, its body is not, and memory is lost. */
  predicate DiedRecording(s: State, t: State, key: Key) {
    t == s.(running := false, intents := s.intents + {key}, stopPending := false, ceilingPending := false)
  }

  /** Only the rows of runs, dispatches and intents and the pending marks may differ. */
  predicate OnlyLoopRows(s: State, t: State) {
    t == s.(runs := t.runs, dispatches := t.dispatches, intents := t.intents, stopPending := t.stopPending, ceilingPending := t.ceilingPending)
  }

  predicate MarksKept(s: State, t: State) {
    t.stopPending == s.stopPending && t.ceilingPending == s.ceilingPending
  }

  /** The dispatch is consumed, if there is such a row, and no other dispatch changed. */
  predicate DispatchConsumed(s: State, t: State, d: DispatchId) {
    && t.dispatches.Keys == s.dispatches.Keys
    && forall e | e in s.dispatches :: t.dispatches[e] == if e == d then s.dispatches[e].(consumed := true) else s.dispatches[e]
  }

  /** Run r went from its row to this one, and no other run changed. */
  predicate RunBecame(s: State, t: State, r: RunId, run: Run) {
    |t.runs| == |s.runs| && r < |s.runs| && t.runs[r] == run && forall q | 0 <= q < |s.runs| && q != r :: t.runs[q] == s.runs[q]
  }

  /**
   * The drain of run r ended: as STOPPED if a stop and no ceiling was due, and as CEILING_REACHED otherwise. Its reason is
   * gone, and of the pending marks at most a stop that a ceiling outranked is left.
   */
  predicate DrainSettled(s: State, t: State, r: RunId)
    requires r < |s.runs|
  {
    var run := s.runs[r];
    var ceiling := s.ceilingPending || run.drain == WALL_CLOCK_CEILING || run.drain == ITERATION_CEILING;
    var stop := s.stopPending || run.drain == USER_STOP;
    && RunBecame(s, t, r, Run(if stop && !ceiling then STOPPED else CEILING_REACHED, run.iteration, run.maxIterations, run.activeDispatch, NOT_DRAINING))
    && !t.ceilingPending && (t.stopPending <==> s.stopPending && ceiling)
  }

  /** Only run r changed, to this row. */
  predicate OnlyRunBecame(s: State, t: State, r: RunId, run: Run) {
    OnlyLoopRows(s, t) && MarksKept(s, t) && t.dispatches == s.dispatches && t.intents == s.intents && RunBecame(s, t, r, run)
  }

  lemma SetRun(s: State, r: RunId, run: Run)
    requires r < |s.runs|
    ensures OnlyRunBecame(s, s.(runs := s.runs[r := run]), r, run)
  {
  }

  lemma SettledAsDue(s: State, r: RunId)
    requires r < |s.runs|
    ensures DrainSettled(s, SettleDrain(s, r), r) && OnlyLoopRows(s, SettleDrain(s, r))
    ensures SettleDrain(s, r).dispatches == s.dispatches && SettleDrain(s, r).intents == s.intents
  {
  }

  // ---------- Transactions ----------

  lemma TransactLaw(s: State, key: Key, body: State, cut: bool, t: State)
    requires body.intents == s.intents && t == Transact(s, key, body, cut)
    ensures if key in s.intents then t == s
            else if cut then DiedRecording(s, t, key)
            else t == body.(intents := s.intents + {key})
  {
  }

  /** How the end of a turn is recorded, and what it does to its run. */
  datatype TurnEnd = Success | Failure(status: LoopState) | Drained

  /** The end of a turn: its dispatch consumed if there is a result, and its run left alone, failed, or out of its drain. */
  predicate TurnEnded(s: State, t: State, r: RunId, d: DispatchId, end: TurnEnd, hasResult: bool, key: Key)
    requires r < |s.runs|
  {
    && OnlyLoopRows(s, t) && t.intents == s.intents + {key}
    && (if hasResult then DispatchConsumed(s, t, d) else t.dispatches == s.dispatches)
    && match end
       case Success => t.runs == s.runs && MarksKept(s, t)
       case Failure(status) =>
         var run := s.runs[r];
         RunBecame(s, t, r, Run(status, run.iteration, run.maxIterations, run.activeDispatch, NOT_DRAINING)) && MarksKept(s, t)
       case Drained => DrainSettled(s, t, r)
  }

  /** The transaction of a turn that ended: nothing under a known key, the bare intent in a crash, and all of it otherwise. */
  predicate TurnRecorded(s: State, t: State, r: RunId, d: DispatchId, end: TurnEnd, hasResult: bool, key: Key, cut: bool)
    requires r < |s.runs|
  {
    if key in s.intents then t == s
    else if cut then DiedRecording(s, t, key)
    else TurnEnded(s, t, r, d, end, hasResult, key)
  }

  lemma DrainLaw(s: State, r: RunId, d: DispatchId, hasResult: bool, key: Key, cut: bool)
    requires r < |s.runs|
    ensures TurnRecorded(s, Transact(s, key, SettleDrain(if hasResult then Consume(s, d) else s, r), cut), r, d, Drained, hasResult, key, cut)
  {
    var consumed := if hasResult then Consume(s, d) else s;
    SettledAsDue(consumed, r);
    hide SettleDrain;
    TransactLaw(s, key, SettleDrain(consumed, r), cut, Transact(s, key, SettleDrain(consumed, r), cut));
    hide Transact;
  }

  lemma SuccessLaw(s: State, r: RunId, d: DispatchId, key: Key, cut: bool)
    requires r < |s.runs|
    ensures TurnRecorded(s, Transact(s, key, Consume(s, d), cut), r, d, Success, true, key, cut)
  {
    TransactLaw(s, key, Consume(s, d), cut, Transact(s, key, Consume(s, d), cut));
    hide Transact;
  }

  lemma FailureLaw(s: State, r: RunId, d: DispatchId, terminal: LoopState, hasResult: bool, key: Key, cut: bool)
    requires r < |s.runs|
    ensures var body := WithRun(if hasResult then Consume(s, d) else s, r, s.runs[r].(status := terminal, drain := NOT_DRAINING));
            TurnRecorded(s, Transact(s, key, body, cut), r, d, Failure(terminal), hasResult, key, cut)
  {
    var body := WithRun(if hasResult then Consume(s, d) else s, r, s.runs[r].(status := terminal, drain := NOT_DRAINING));
    TransactLaw(s, key, body, cut, Transact(s, key, body, cut));
    hide Transact;
  }

  // ---------- Dispatches ----------

  /** The dispatch is made for the active run's next iteration and not consumed yet. */
  predicate ForNextIteration(s: State, d: DispatchId) {
    var active := ActiveRun(s.runs);
    && active.Some? && d in s.dispatches && !s.dispatches[d].consumed
    && s.dispatches[d].runId == active.value && s.dispatches[d].iteration == s.runs[active.value].iteration + 1
  }

  predicate AtDrainBoundary(s: State, run: Run) {
    run.status.DRAINING? || s.stopPending || s.ceilingPending || run.drain != NOT_DRAINING
  }

  /** Run r entered its next iteration with this dispatch. */
  predicate IterationEntered(s: State, t: State, r: RunId, d: DispatchId)
    requires r < |s.runs|
  {
    var run := s.runs[r];
    && RunBecame(s, t, r, Run(EXECUTOR_PENDING, run.iteration + 1, run.maxIterations, Some(d), run.drain))
    && t.startRows == s.startRows + {StartRow(r, d)} && MarksKept(s, t)
    && t == s.(runs := t.runs, dispatches := t.dispatches, intents := t.intents, startRows := t.startRows, started := t.started)
    && |t.started| == |s.started| && forall q | 0 <= q < |s.started| :: t.started[q] == if q == r then s.started[q] + [d] else s.started[q]
  }

  /** The transaction that starts the run's next iteration. */
  predicate StartRecorded(s: State, t: State, r: RunId, d: DispatchId, cut: bool)
    requires r < |s.runs|
  {
    var key := DispatchKey(d, DISPATCH_START);
    if key in s.intents then t == s
    else if cut then DiedRecording(s, t, key)
    else t.intents == s.intents + {key} && DispatchConsumed(s, t, d) && IterationEntered(s, t, r, d)
  }

  lemma StartLaw(s: State, r: RunId, d: DispatchId, cut: bool)
    requires r < |s.runs| && d in s.dispatches && s.dispatches[d].iteration == s.runs[r].iteration + 1
    ensures StartRecorded(s, Transact(s, DispatchKey(d, DISPATCH_START), StartDispatch(s, r, d), cut), r, d, cut)
  {
  }

  /**
   * A detected dispatch for the next iteration of the active run: at a drain boundary it ends the drain, and at a Sol
   * boundary with nobody else at work it starts that iteration. In any other case nothing happens.
   */
  lemma DispatchLaw(s: State, d: DispatchId, free: bool, cut: bool, t: State)
    requires s.running && t == Step(s, OnDispatchDetected(d, free, cut))
    ensures if !ForNextIteration(s, d) then t == s
            else
              var r := ActiveRun(s.runs).value;
              if AtDrainBoundary(s, s.runs[r]) then TurnRecorded(s, t, r, d, Drained, true, DispatchKey(d, DISPATCH_DRAIN), cut)
              else if free && (s.runs[r].status.SOL_PENDING? || s.runs[r].status.SOL_REVIEWING?) then StartRecorded(s, t, r, d, cut)
              else t == s
  {
    HandledDispatch(s, d, free, cut);
    hide ActiveRun, Step, Handled;
    if ForNextIteration(s, d) {
      var r := ActiveRun(s.runs).value;
      DrainLaw(s, r, d, true, DispatchKey(d, DISPATCH_DRAIN), cut);
      StartLaw(s, r, d, cut);
      hide TurnRecorded, StartRecorded, Transact, SettleDrain, StartDispatch, Consume;
    }
  }

  lemma HandledDispatch(s: State, d: DispatchId, free: bool, cut: bool)
    requires s.running
    ensures Step(s, OnDispatchDetected(d, free, cut)) == DispatchDetected(s, d, free, cut)
  {
  }

  // ---------- Completions ----------

  lemma CompletionLaw(s: State, r: RunId, d: DispatchId, isCompleted: bool, terminal: LoopState, hasResult: bool, cut: bool)
    requires r < |s.runs| && (isCompleted ==> hasResult)
    ensures var t := CompleteIteration(s, r, d, isCompleted, terminal, hasResult, cut);
      if s.runs[r].status.DRAINING? then
        TurnRecorded(s, t, r, d, Drained, hasResult, DispatchKey(d, if hasResult then COMPLETE_DRAIN else FAIL_DRAIN), cut)
      else if isCompleted then TurnRecorded(s, t, r, d, Success, true, DispatchKey(d, COMPLETE), cut)
      else TurnRecorded(s, t, r, d, Failure(terminal), hasResult, DispatchKey(d, FailOperation(terminal)), cut)
  {
    DrainLaw(s, r, d, hasResult, DispatchKey(d, if hasResult then COMPLETE_DRAIN else FAIL_DRAIN), cut);
    SuccessLaw(s, r, d, DispatchKey(d, COMPLETE), cut);
    FailureLaw(s, r, d, terminal, hasResult, DispatchKey(d, FailOperation(terminal)), cut);
    hide TurnRecorded, Transact, SettleDrain, Consume, WithRun;
  }

  /**
   * The executor's completion of a dispatch, for the active run. A drain ends; otherwise a success is recorded, a failure
   * ends the run as blocked, as needing a human, or in recovery, and a missing result sends it to recovery unrecorded.
   */
  lemma ExecutorLaw(s: State, d: DispatchId, result: Option<ExecutorStatus>, cut: bool, t: State)
    requires s.running && t == Step(s, OnExecutorCompleted(d, result, cut))
    ensures match ActiveRun(s.runs)
      case None => t == s
      case Some(r) =>
        if s.runs[r].status.DRAINING? then
          TurnRecorded(s, t, r, d, Drained, result.Some?, DispatchKey(d, if result.Some? then COMPLETE_DRAIN else FAIL_DRAIN), cut)
        else match result
          case None =>
            var run := s.runs[r];
            OnlyRunBecame(s, t, r, Run(RECOVERY_REQUIRED, run.iteration, run.maxIterations, run.activeDispatch, run.drain))
          case Some(EXECUTOR_COMPLETED) => TurnRecorded(s, t, r, d, Success, true, DispatchKey(d, COMPLETE), cut)
          case Some(EXECUTOR_BLOCKED) => TurnRecorded(s, t, r, d, Failure(BLOCKED), true, DispatchKey(d, FAIL_BLOCKED), cut)
          case Some(EXECUTOR_NEEDS_HUMAN) => TurnRecorded(s, t, r, d, Failure(NEEDS_HUMAN), true, DispatchKey(d, FAIL_NEEDS_HUMAN), cut)
          case Some(EXECUTOR_FAILED) => TurnRecorded(s, t, r, d, Failure(RECOVERY_REQUIRED), true, DispatchKey(d, FAIL_RECOVERY_REQUIRED), cut)
  {
    HandledExecutorCompletion(s, d, result, cut);
    hide ActiveRun, Step, Handled;
    var active := ActiveRun(s.runs);
    if active.Some? {
      var r := active.value;
      SetRun(s, r, s.runs[r].(status := RECOVERY_REQUIRED));
      CompletionLaw(s, r, d, false, RECOVERY_REQUIRED, result.Some?, cut);
      CompletionLaw(s, r, d, true, RECOVERY_REQUIRED, true, cut);
      CompletionLaw(s, r, d, false, BLOCKED, true, cut);
      CompletionLaw(s, r, d, false, NEEDS_HUMAN, true, cut);
      hide CompleteIteration, TurnRecorded, OnlyRunBecame;
    }
  }

  lemma HandledExecutorCompletion(s: State, d: DispatchId, result: Option<ExecutorStatus>, cut: bool)
    requires s.running
    ensures Step(s, OnExecutorCompleted(d, result, cut)) == ExecutorCompleted(s, d, result, cut)
  {
  }

  /** An outcome of the dispatch has been recorded. */
  predicate HasOutcome(s: State, d: DispatchId) {
    exists op: Operation | op in {COMPLETE, POSTFLIGHT_COMPLETE, COMPLETE_DRAIN, FAIL_DRAIN, FAIL_BLOCKED, FAIL_NEEDS_HUMAN, FAIL_RECOVERY_REQUIRED} ::
      DispatchKey(d, op) in s.intents
  }

  lemma OutcomeIff(s: State, d: DispatchId)
    ensures IterationCompleted(s.intents, d) <==> HasOutcome(s, d)
  {
    if IterationCompleted(s.intents, d) {
      var k :| k in s.intents && k.DispatchKey? && k.dispatch == d && !k.operation.DISPATCH_START? && !k.operation.DISPATCH_DRAIN?;
      assert DispatchKey(d, k.operation) in s.intents;
    }
  }

  /** A postflight that could not be confirmed: a run at work or in a drain goes to recovery, a drain with all its reasons gone. */
  predicate PostflightHeld(s: State, t: State, r: RunId) {
    if r >= |s.runs| then t == s
    else
      var run := s.runs[r];
      if run.status.EXECUTOR_PENDING? || run.status.EXECUTING? then
        OnlyRunBecame(s, t, r, Run(RECOVERY_REQUIRED, run.iteration, run.maxIterations, run.activeDispatch, run.drain))
      else if run.status.DRAINING? then
        && t == s.(runs := t.runs, stopPending := false, ceilingPending := false)
        && RunBecame(s, t, r, Run(RECOVERY_REQUIRED, run.iteration, run.maxIterations, run.activeDispatch, NOT_DRAINING))
      else t == s
  }

  lemma PostflightLaw(s: State, r: RunId)
    ensures PostflightHeld(s, PostflightBlocked(s, r), r)
  {
  }

  /**
   * A strategy's completion counts once, for the active run: a success only when its publication is confirmed, a partial or
   * blocked strategy blocks the run, and a failed one sends it to recovery; a drain ends whatever the status is.
   */
  lemma StrategyLaw(s: State, c: Completion, cut: bool, t: State)
    requires s.running && t == Step(s, OnStrategyCompleted(c, cut))
    ensures match ActiveRun(s.runs)
      case None => t == s
      case Some(r) =>
        if HasOutcome(s, c.dispatch) then t == s
        else if c.status.STRATEGY_COMPLETED? && !c.confirmed then PostflightHeld(s, t, c.runId)
        else if s.runs[r].status.DRAINING? then TurnRecorded(s, t, r, c.dispatch, Drained, true, DispatchKey(c.dispatch, COMPLETE_DRAIN), cut)
        else match c.status
          case STRATEGY_COMPLETED => TurnRecorded(s, t, r, c.dispatch, Success, true, DispatchKey(c.dispatch, COMPLETE), cut)
          case STRATEGY_FAILED => TurnRecorded(s, t, r, c.dispatch, Failure(RECOVERY_REQUIRED), true, DispatchKey(c.dispatch, FAIL_RECOVERY_REQUIRED), cut)
          case _ => TurnRecorded(s, t, r, c.dispatch, Failure(BLOCKED), true, DispatchKey(c.dispatch, FAIL_BLOCKED), cut)
  {
    HandledStrategyCompletion(s, c, cut);
    OutcomeIff(s, c.dispatch);
    PostflightLaw(s, c.runId);
    hide ActiveRun, Step, Handled, PostflightBlocked, PostflightHeld, IterationCompleted, HasOutcome;
    var active := ActiveRun(s.runs);
    if active.Some? {
      CompletionLaw(s, active.value, c.dispatch, true, RECOVERY_REQUIRED, true, cut);
      CompletionLaw(s, active.value, c.dispatch, false, RECOVERY_REQUIRED, true, cut);
      CompletionLaw(s, active.value, c.dispatch, false, BLOCKED, true, cut);
      hide CompleteIteration, TurnRecorded;
    }
  }

  lemma HandledStrategyCompletion(s: State, c: Completion, cut: bool)
    requires s.running
    ensures Step(s, OnStrategyCompleted(c, cut)) == StrategyCompleted(s, c, cut)
  {
  }

  /** A confirmed retry is recorded if its dispatch has no outcome yet and no actor is at work on its run. */
  predicate RetryCounts(s: State, c: Completion) {
    && c.confirmed && c.dispatch in s.dispatches && !HasOutcome(s, c.dispatch) && c.runId < |s.runs|
    && !(s.runs[c.runId].status in {SOL_PENDING, SOL_REVIEWING, EXECUTOR_PENDING, EXECUTING})
  }

  /** Such a retry carries on a run in recovery, or one that is idle or paused; no other run is carried on. */
  predicate CarriesOn(run: Run) {
    run.status in {RECOVERY_REQUIRED, IDLE, PAUSED}
  }

  /** What a retry that counts leaves. */
  predicate RetryRecorded(s: State, t: State, c: Completion, late: bool, cut: bool)
    requires c.runId < |s.runs|
  {
    var key, run := DispatchKey(c.dispatch, POSTFLIGHT_COMPLETE), s.runs[c.runId];
    if cut then DiedRecording(s, t, key)
    else
      && OnlyLoopRows(s, t) && DispatchConsumed(s, t, c.dispatch) && t.intents == s.intents + {key} && t.stopPending == s.stopPending
      && if CarriesOn(run) && (run.iteration >= run.maxIterations || late) then
           !t.ceilingPending && RunBecame(s, t, c.runId, Run(CEILING_REACHED, run.iteration, run.maxIterations, run.activeDispatch, NOT_DRAINING))
         else t.ceilingPending == s.ceilingPending && t.runs == s.runs
  }

  lemma RetryCountsLaw(s: State, c: Completion, late: bool, cut: bool, recorded: State)
    requires c.runId < |s.runs| && !(s.runs[c.runId].status in {SOL_PENDING, SOL_REVIEWING, EXECUTOR_PENDING, EXECUTING})
    requires recorded == if cut then s.(running := false, intents := s.intents + {DispatchKey(c.dispatch, POSTFLIGHT_COMPLETE)}, stopPending := false, ceilingPending := false)
                         else Consume(s, c.dispatch).(intents := s.intents + {DispatchKey(c.dispatch, POSTFLIGHT_COMPLETE)})
    ensures RetryRecorded(s, if cut || ClosedToRetry(s.runs[c.runId].status) then recorded else ContinueCompleted(recorded, c.runId, late), c, late, cut)
  {
    if !cut {
      ConsumedAs(s, c.dispatch);
      ContinueLaw(recorded, c.runId, late);
      hide ContinueCompleted, Consume, DispatchConsumed, RunBecame;
      RowsOfContinued(s, recorded, ContinueCompleted(recorded, c.runId, late), c.runId);
    }
  }

  /** What became of a run does not depend on the other tables. */
  lemma RowsOfContinued(s: State, recorded: State, t: State, r: RunId)
    requires recorded.runs == s.runs
    ensures forall run :: RunBecame(recorded, t, r, run) <==> RunBecame(s, t, r, run)
  {
  }

  lemma ConsumedAs(s: State, d: DispatchId)
    ensures DispatchConsumed(s, Consume(s, d), d) && Consume(s, d) == s.(dispatches := Consume(s, d).dispatches)
  {
  }

  lemma ContinueLaw(s: State, r: RunId, late: bool)
    requires r < |s.runs|
    ensures var t, run := ContinueCompleted(s, r, late), s.runs[r];
            if run.iteration >= run.maxIterations || late then
              && t == s.(runs := t.runs, ceilingPending := false)
              && RunBecame(s, t, r, Run(CEILING_REACHED, run.iteration, run.maxIterations, run.activeDispatch, NOT_DRAINING))
            else t == s
  {
  }

  /**
   * A retried postflight: unconfirmed it holds its run back, confirmed it records the success of its dispatch, once. The run
   * it carries on ends at its ceiling if it has no iteration or no time left.
   */
  lemma RetryLaw(s: State, c: Completion, late: bool, cut: bool, t: State)
    requires s.running && t == Step(s, RetriesPostflight(c, late, cut))
    ensures if !c.confirmed then PostflightHeld(s, t, c.runId)
            else if RetryCounts(s, c) then RetryRecorded(s, t, c, late, cut)
            else t == s
  {
    HandledRetry(s, c, late, cut);
    OutcomeIff(s, c.dispatch);
    PostflightLaw(s, c.runId);
    hide Step, Handled, PostflightBlocked, PostflightHeld, ContinueCompleted, ClosedToRetry;
    if RetryCounts(s, c) {
      var key := DispatchKey(c.dispatch, POSTFLIGHT_COMPLETE);
      assert key !in s.intents;
      var recorded := Transact(s, key, Consume(s, c.dispatch), cut);
      TransactLaw(s, key, Consume(s, c.dispatch), cut, recorded);
      hide Transact, IterationCompleted, HasOutcome, RetryRecorded, Consume;
      RetryCountsLaw(s, c, late, cut, recorded);
    }
  }

  lemma HandledRetry(s: State, c: Completion, late: bool, cut: bool)
    requires s.running
    ensures Step(s, RetriesPostflight(c, late, cut)) == PostflightRetried(s, c, late, cut)
  {
  }

  // ---------- Sol ----------

  /** The state a decision asks for. */
  predicate AsksFor(decision: Decision, status: LoopState) {
    || (decision.GoalComplete? && status.GOAL_COMPLETE?) || (decision.DecideBlocked? && status.BLOCKED?)
    || (decision.DecideNeedsHuman? && status.NEEDS_HUMAN?) || (decision.DecidePaused? && status.PAUSED?)
  }

  /** The run a control is for: the newest one at work or, when all have ended, the newest stalled one. */
  predicate IsTarget(s: State, r: RunId) {
    && r < |s.runs|
    && if ActiveRun(s.runs).Some? then ActiveRun(s.runs) == Some(r)
       else s.runs[r].status.SOL_STALLED? && forall q | r < q < |s.runs| :: !s.runs[q].status.SOL_STALLED?
  }

  /** The control was made for that run, its iteration and, if it names one, its dispatch; a stalled run cannot be paused. */
  predicate FitsRun(s: State, c: ControlId, decision: Decision, r: RunId)
    requires c in s.controls && r < |s.runs|
  {
    var control := s.controls[c];
    && control.ownRepository && control.runId == r && control.iteration == s.runs[r].iteration
    && (control.relatedDispatch.None? || control.relatedDispatch == s.runs[r].activeDispatch)
    && !(decision.DecidePaused? && ActiveRun(s.runs).None?)
  }

  /** Only the status of this control changed. */
  predicate ControlBecame(s: State, t: State, c: ControlId, status: ControlStatus) {
    && c in s.controls && t.controls.Keys == s.controls.Keys
    && forall e | e in s.controls :: t.controls[e] == if e == c then s.controls[e].(status := status) else s.controls[e]
  }

  /** The control is applied, once, together with what it does to its run. */
  predicate ControlRecorded(s: State, t: State, c: ControlId, decision: Decision, r: RunId, cut: bool)
    requires r < |s.runs|
  {
    if ControlKey(c) in s.intents then t == s
    else if cut then DiedRecording(s, t, ControlKey(c))
    else
      && t == s.(runs := t.runs, controls := t.controls, applied := s.applied + [c], intents := s.intents + {ControlKey(c)},
                 stopPending := t.stopPending, ceilingPending := t.ceilingPending)
      && ControlBecame(s, t, c, Consumed)
      && var run := s.runs[r];
      if ActiveRun(s.runs).Some? && (s.stopPending || s.ceilingPending || run.drain != NOT_DRAINING) then DrainSettled(s, t, r)
      else
        && MarksKept(s, t) && r < |t.runs| && AsksFor(decision, t.runs[r].status)
        && RunBecame(s, t, r, Run(t.runs[r].status, run.iteration, run.maxIterations, run.activeDispatch,
                                  if ActiveRun(s.runs).Some? then run.drain else NOT_DRAINING))
  }

  /**
   * A detected control that fits its run while no strategy works on it is applied: at a drain boundary it ends the drain,
   * otherwise it puts the run where it asks. One that does not fit, or asks for the goal while an executor is at work, is
   * rejected, and one that meets an unexplained drain has to wait.
   */
  lemma ControlLaw(s: State, c: ControlId, decision: Decision, strategyActive: bool, cut: bool, t: State)
    requires s.running && t == Step(s, OnControlDetected(c, decision, strategyActive, cut))
    ensures if c !in s.controls || !s.controls[c].status.Detected? then t == s
            else
              var r := s.controls[c].runId;
              if strategyActive || !IsTarget(s, r) || !FitsRun(s, c, decision, r)
                 || (decision.GoalComplete? && (s.runs[r].status.EXECUTOR_PENDING? || s.runs[r].status.EXECUTING?)) then
                t == s.(controls := t.controls) && ControlBecame(s, t, c, Rejected)
              else if s.runs[r].status.DRAINING? && !s.stopPending && !s.ceilingPending && s.runs[r].drain == NOT_DRAINING then t == s
              else ControlRecorded(s, t, c, decision, r, cut)
  {
    HandledControlSignal(s, c, decision, strategyActive, cut);
    hide Step, Handled;
    if c in s.controls && s.controls[c].status.Detected? {
      ValidIff(s, c, decision, strategyActive);
      RejectLaw(s, c);
      if ControlValid(s, c, decision, strategyActive) {
        var r := s.controls[c].runId;
        ActiveIsNotTerminal(s);
        if ActiveRun(s.runs).Some? && DrainPending(s, s.runs[r]) {
          ControlDrainLaw(s, c, decision, r, cut);
        }
        ControlDecidesLaw(s, c, decision, r, cut);
        hide ControlValid, ActiveRun, LatestStalledRun, IsTarget, FitsRun, ControlRecorded, ControlBecame, Transact, SettleDrain, Apply, Reject, WithStatus, WithRun;
      }
      hide ControlBecame, ControlRecorded, ControlValid, FitsRun, IsTarget, ActiveRun, LatestStalledRun, ControlTarget, Reject;
    }
  }

  lemma HandledControlSignal(s: State, c: ControlId, decision: Decision, strategyActive: bool, cut: bool)
    requires s.running
    ensures Step(s, OnControlDetected(c, decision, strategyActive, cut)) == ControlDetected(s, c, decision, strategyActive, cut)
  {
  }

  lemma ActiveIsNotTerminal(s: State)
    ensures ActiveRun(s.runs).Some? ==> ActiveRun(s.runs).value < |s.runs|
  {
  }

  lemma ValidIff(s: State, c: ControlId, decision: Decision, strategyActive: bool)
    requires c in s.controls
    ensures var r := s.controls[c].runId;
      && (ControlValid(s, c, decision, strategyActive) <==> !strategyActive && IsTarget(s, r) && FitsRun(s, c, decision, r))
      && (ControlValid(s, c, decision, strategyActive) ==> r < |s.runs| && ControlTarget(s, c) == Some(r))
  {
  }

  lemma RejectLaw(s: State, c: ControlId)
    requires c in s.controls
    ensures var t := Reject(s, c); t == s.(controls := t.controls) && ControlBecame(s, t, c, Rejected)
  {
  }

  lemma ControlDrainLaw(s: State, c: ControlId, decision: Decision, r: RunId, cut: bool)
    requires c in s.controls && r < |s.runs| && ActiveRun(s.runs).Some? && DrainPending(s, s.runs[r])
    ensures ControlRecorded(s, Transact(s, ControlKey(c), Apply(SettleDrain(s, r), c), cut), c, decision, r, cut)
  {
  }

  lemma ControlDecidesLaw(s: State, c: ControlId, decision: Decision, r: RunId, cut: bool)
    requires c in s.controls && r < |s.runs|
    ensures ActiveRun(s.runs).Some? && !DrainPending(s, s.runs[r]) ==>
      ControlRecorded(s, Transact(s, ControlKey(c), Apply(WithStatus(s, r, DecidedState(decision)), c), cut), c, decision, r, cut)
    ensures ActiveRun(s.runs).None? ==>
      ControlRecorded(s, Transact(s, ControlKey(c), Apply(WithRun(s, r, s.runs[r].(status := DecidedState(decision), drain := NOT_DRAINING)), c), cut), c, decision, r, cut)
  {
  }
}
