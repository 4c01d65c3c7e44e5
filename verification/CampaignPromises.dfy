/** What a caller of one handler can rely on, besides the new state itself. */
module CampaignPromises {
  import opened CampaignDrain
  import opened CampaignEndings
  import opened CampaignLedger
  import opened CampaignState
  import opened CampaignSteps
  import opened Wrappers

  /** Nothing but runs and pending marks changed, and no run other than r. */
  predicate OnlyRun(s: State, t: State, r: RunId) {
    && t == s.(runs := t.runs, stopPending := t.stopPending, ceilingPending := t.ceilingPending)
    && |t.runs| == |s.runs| && (r < |s.runs| ==> t.runs == s.runs[r := t.runs[r]]) && (r >= |s.runs| ==> t.runs == s.runs)
  }

  // ---------- Starting ----------

  /**
   * A start row is spent by its delivery: one entry if the row gets through and none otherwise, and after a delivery
   * that got through the next one changes nothing, whatever it finds.
   */
  lemma StartRowIsSpent(s: State, row: StartRow, recorded: bool, start: StartOutcome, again: bool, restart: StartOutcome)
    requires Startable(s, row, recorded) && !start.Interrupted?
    ensures var t := StartDelivered(s, row, recorded, start);
            && t.entries == s.entries + [row.dispatch]
            && !Startable(t, row, again) && StartDelivered(t, row, again, restart) == t
            && |t.runs| == |s.runs| && forall r | 0 <= r < |s.runs| && r != row.runId :: t.runs[r] == s.runs[r]
  {
  }

  // ---------- Completions ----------

  /** No dispatch but d changed, and d only by being consumed. */
  ghost predicate OnlyConsumes(s: State, t: State, d: DispatchId) {
    t.dispatches == s.dispatches || t.dispatches == Consume(s, d).dispatches
  }

  lemma TransactTables(s: State, key: Key, body: State, cut: bool)
    ensures var t := Transact(s, key, body, cut);
            if key !in s.intents && !cut then t.runs == body.runs && t.dispatches == body.dispatches
            else t.runs == s.runs && t.dispatches == s.dispatches
  {
  }

  lemma SettledTables(s: State, r: RunId)
    requires r < |s.runs|
    ensures SettleDrain(s, r).runs == s.runs[r := DrainedRun(s, s.runs[r])] && SettleDrain(s, r).dispatches == s.dispatches
  {
  }

  lemma CompletionConsumesOnly(s: State, r: RunId, d: DispatchId, isCompleted: bool, terminal: LoopState, hasResult: bool, cut: bool)
    requires r < |s.runs|
    ensures OnlyConsumes(s, CompleteIteration(s, r, d, isCompleted, terminal, hasResult, cut), d)
  {
    hide Transact, SettleDrain;
    var consumed := if hasResult then Consume(s, d) else s;
    SettledTables(consumed, r);
    TransactTables(s, DispatchKey(d, if hasResult then COMPLETE_DRAIN else FAIL_DRAIN), SettleDrain(consumed, r), cut);
    TransactTables(s, DispatchKey(d, COMPLETE), Consume(s, d), cut);
    TransactTables(s, DispatchKey(d, FailOperation(terminal)),
                   WithRun(consumed, r, s.runs[r].(status := terminal, drain := NOT_DRAINING)), cut);
  }

  /** When an executor's completion ends the active run: a failure, a missing result or a drain, in a transaction that is new and commits. */
  predicate EndsActiveRun(s: State, d: DispatchId, result: Option<ExecutorStatus>, cut: bool) {
    var active := ActiveRun(s.runs);
    && active.Some?
    && if !s.runs[active.value].status.DRAINING? && result.None? then true
       else (s.runs[active.value].status.DRAINING? || result != Some(EXECUTOR_COMPLETED)) && ExecutorKey(s, d, result) !in s.intents && !cut
  }

  lemma CompletionTouchesRun(s: State, r: RunId, d: DispatchId, isCompleted: bool, terminal: LoopState, hasResult: bool, cut: bool)
    requires r < |s.runs| && IsTerminal(terminal) && !IsTerminal(s.runs[r].status)
    ensures var t, run := CompleteIteration(s, r, d, isCompleted, terminal, hasResult, cut), s.runs[r];
            && |t.runs| == |s.runs| && t.runs == s.runs[r := t.runs[r]]
            && (t.runs[r] != run <==> (run.status.DRAINING? || !isCompleted) && !cut
                                      && CompletionKey(run.status.DRAINING?, d, isCompleted, terminal, hasResult) !in s.intents)
  {
    hide Transact, SettleDrain;
    var consumed := if hasResult then Consume(s, d) else s;
    var failed := s.runs[r].(status := terminal, drain := NOT_DRAINING);
    SettledTables(consumed, r);
    if s.runs[r].status.DRAINING? {
      TransactTables(s, DispatchKey(d, if hasResult then COMPLETE_DRAIN else FAIL_DRAIN), SettleDrain(consumed, r), cut);
    } else if isCompleted {
      TransactTables(s, DispatchKey(d, COMPLETE), Consume(s, d), cut);
    } else {
      TransactTables(s, DispatchKey(d, FailOperation(terminal)), WithRun(consumed, r, failed), cut);
    }
  }

  /**
   * An executor's completion touches no run but the active one, which it ends, short of the goal, exactly when it says so
   * above; it touches no dispatch but its own.
   */
  lemma ExecutorCompletionPromise(s: State, d: DispatchId, result: Option<ExecutorStatus>, cut: bool, r: RunId)
    requires r < |s.runs|
    ensures var t := ExecutorCompleted(s, d, result, cut);
            && |t.runs| == |s.runs| && OnlyConsumes(s, t, d)
            && (t.runs[r] != s.runs[r] <==> ActiveRun(s.runs) == Some(r) && EndsActiveRun(s, d, result, cut))
            && (t.runs[r] != s.runs[r] ==> IsTerminal(t.runs[r].status) && !t.runs[r].status.GOAL_COMPLETE?)
  {
    hide ActiveRun, CompleteIteration, OnlyEnds;
    ExecutorCompletedEnds(s, d, result, cut);
    EndsAt(s, ExecutorCompleted(s, d, result, cut), r);
    var active := ActiveRun(s.runs);
    if active.Some? {
      var q := active.value;
      CompletionTouchesRun(s, q, d, false, RECOVERY_REQUIRED, result.Some?, cut);
      CompletionConsumesOnly(s, q, d, false, RECOVERY_REQUIRED, result.Some?, cut);
      if result.Some? {
        CompletionTouchesRun(s, q, d, result.value.EXECUTOR_COMPLETED?, FailureState(result.value), true, cut);
        CompletionConsumesOnly(s, q, d, result.value.EXECUTOR_COMPLETED?, FailureState(result.value), true, cut);
      }
    }
  }

  lemma RecordedCompletes(s: State, d: DispatchId, op: Operation)
    requires DispatchKey(d, op) in s.intents && !op.DISPATCH_START? && !op.DISPATCH_DRAIN?
    ensures IterationCompleted(s.intents, d)
  {
  }

  lemma CompletionIsRecorded(s: State, r: RunId, d: DispatchId, isCompleted: bool, terminal: LoopState, cut: bool)
    requires r < |s.runs|
    ensures IterationCompleted(CompleteIteration(s, r, d, isCompleted, terminal, true, cut).intents, d)
  {
    CompleteMarks(s, r, d, isCompleted, terminal, true, cut);
    var key := CompletionKey(s.runs[r].status.DRAINING?, d, isCompleted, terminal, true);
    assert key in CompleteIteration(s, r, d, isCompleted, terminal, true, cut).intents;
    RecordedCompletes(CompleteIteration(s, r, d, isCompleted, terminal, true, cut), d, key.operation);
  }

  /** Reporting the same strategy completion again changes nothing. */
  lemma StrategyCompletionIsIdempotent(s: State, c: Completion, again: bool)
    ensures StrategyCompleted(StrategyCompleted(s, c, false), c, again) == StrategyCompleted(s, c, false)
  {
    hide CompleteIteration, IterationCompleted, ActiveRun, PostflightBlocked;
    var active := ActiveRun(s.runs);
    if active.Some? && !IterationCompleted(s.intents, c.dispatch) {
      var t := StrategyCompleted(s, c, false);
      if c.status.STRATEGY_COMPLETED? && !c.confirmed {
        BlockedIsIdempotent(s, c.runId);
      } else {
        var terminal := if c.status.STRATEGY_PARTIAL? || c.status.STRATEGY_BLOCKED? then BLOCKED else RECOVERY_REQUIRED;
        CompletionIsRecorded(s, active.value, c.dispatch, c.status.STRATEGY_COMPLETED?, terminal, false);
      }
    }
  }

  /** A completion without a confirmed publication consumes nothing and records nothing. */
  lemma UnconfirmedIsNotRecorded(s: State, c: Completion, cut: bool)
    requires c.status.STRATEGY_COMPLETED? && !c.confirmed
    ensures OnlyRun(s, StrategyCompleted(s, c, cut), c.runId)
  {
    hide ActiveRun, IterationCompleted, CompleteIteration;
  }

  lemma BlockedIsIdempotent(s: State, r: RunId)
    ensures PostflightBlocked(PostflightBlocked(s, r), r) == PostflightBlocked(s, r)
  {
    if r < |s.runs| {
      PostflightBlockedReleases(s, r);
      BlockedLeavesAlone(PostflightBlocked(s, r), r);
      hide PostflightBlocked;
    }
  }

  lemma BlockedLeavesAlone(s: State, r: RunId)
    requires r < |s.runs| && !ExecutorActive(s.runs[r].status) && !s.runs[r].status.DRAINING?
    ensures PostflightBlocked(s, r) == s
  {
  }

  /**
   * A blocked postflight touches one run: at work or draining it goes to RECOVERY_REQUIRED, in a drain with its reason
   * gone and both marks clear, so that nothing holds the repository back; any other run is left alone.
   */
  lemma PostflightBlockedReleases(s: State, r: RunId)
    requires r < |s.runs|
    ensures var t := PostflightBlocked(s, r);
            && OnlyRun(s, t, r)
            && (t.runs[r] != s.runs[r] <==> ExecutorActive(s.runs[r].status) || s.runs[r].status.DRAINING?)
            && (t.runs[r] != s.runs[r] ==> t.runs[r].status.RECOVERY_REQUIRED?)
            && (s.runs[r].status.DRAINING? ==> !DrainPending(t, t.runs[r]))
  {
  }

  // ---------- Requests ----------

  /**
   * A stop leaves the active run stopped, or draining so that its next boundary ends it: as STOPPED unless a ceiling
   * comes first. Every other run is left alone.
   */
  lemma StopReachesBoundary(s: State, strategyActive: bool, r: RunId)
    requires ActiveRun(s.runs) == Some(r) && (s.runs[r].status.DRAINING? ==> StillDraining(s, r))
    ensures var t := StopRequested(s, strategyActive);
            && OnlyRun(s, t, r)
            && (t.runs[r].status.STOPPED? || StillDraining(t, r))
            && (StillDraining(t, r) && !IsCeiling(t, t.runs[r]) ==> DrainedRun(t, t.runs[r]).status.STOPPED?)
  {
    hide ActiveRun;
  }

  /** Pausing an executing run and resuming it puts everything back, but for the executor being launched once more. */
  lemma PauseResumeRoundTrip(s: State, strategyActive: bool, r: RunId)
    requires ActiveRun(s.runs) == Some(r) && s.runs[r].status.EXECUTING? && !DrainPending(s, s.runs[r])
    requires strategyActive || s.runs[r].activeDispatch.Some?
    ensures var paused := PauseRequested(s, strategyActive);
            && OnlyRun(s, paused, r) && paused.runs[r] == s.runs[r].(status := PAUSED)
            && var t := Resumed(paused, strategyActive, true);
               && t == s.(executed := t.executed)
               && t.executed == if strategyActive then s.executed else s.executed + {s.runs[r].activeDispatch.value}
  {
    var paused := PauseRequested(s, strategyActive);
    SameActivity(s.runs, paused.runs);
    hide ActiveRun;
    assert s.runs[r := paused.runs[r]][r := s.runs[r]] == s.runs;
  }

  /** Which run is active depends only on which runs are terminal. */
  lemma {:induction false} SameActivity(a: seq<Run>, b: seq<Run>)
    requires |a| == |b| && forall k | 0 <= k < |a| :: IsTerminal(a[k].status) == IsTerminal(b[k].status)
    ensures ActiveRun(a) == ActiveRun(b)
  {
    if a != [] {
      SameActivity(a[..|a| - 1], b[..|b| - 1]);
    }
  }

  /** A pause never touches a drain: with one pending, or at a Sol boundary, it is refused. */
  lemma PauseIsRefusedDuringDrain(s: State, strategyActive: bool, r: RunId)
    requires ActiveRun(s.runs) == Some(r) && (s.runs[r].status.DRAINING? || DrainPending(s, s.runs[r]) || (SolActive(s.runs[r].status) && !strategyActive))
    ensures PauseRequested(s, strategyActive) == s
  {
    hide ActiveRun;
  }

  /**
   * A kill ends one run and touches nothing else: no other run, no dispatch, no recorded outcome, no start row. None of
   * the run's start rows gets through afterwards.
   */
  lemma KillEndsOneRun(s: State, r: RunId, row: StartRow, recorded: bool)
    requires r < |s.runs|
    ensures var t := Killed(s, r);
            && OnlyRun(s, t, r) && t.runs[r].status.RECOVERY_REQUIRED? && t.runs[r].iteration == s.runs[r].iteration
            && (row.runId == r ==> !Startable(t, row, recorded))
  {
  }

  predicate NeedsOperator(status: LoopState) {
    status.RECOVERY_REQUIRED? || status.BLOCKED? || status.NEEDS_HUMAN? || status.ATTENTION_REQUIRED?
  }

  /**
   * Recovery touches the latest run only, and only if it needs an operator. It reaches the goal exactly by completing
   * and Sol exactly by a retry without postflight evidence; such evidence changes nothing here.
   */
  lemma RecoveryTouchesLatestRun(s: State, how: Recovery, evidence: bool)
    requires s.runs != []
    ensures var t, r := Recovered(s, how, evidence), |s.runs| - 1;
            && OnlyRun(s, t, r)
            && (t != s <==> NeedsOperator(s.runs[r].status) && !(how.RecoverRetry? && evidence))
            && (t != s ==> (t.runs[r].status.GOAL_COMPLETE? <==> how.RecoverComplete?) && (SolActive(t.runs[r].status) <==> how.RecoverRetry?))
  {
    var r := |s.runs| - 1;
    StatusTouchesRun(s, r, STOPPED);
    StatusTouchesRun(s, r, GOAL_COMPLETE);
    StatusTouchesRun(s, r, SOL_PENDING);
    hide WithStatus, OnlyRun;
  }

  lemma StatusTouchesRun(s: State, r: RunId, status: LoopState)
    requires r < |s.runs|
    ensures OnlyRun(s, s, r) && OnlyRun(s, WithStatus(s, r, status), r) && WithStatus(s, r, status).runs[r].status == status
    ensures status != s.runs[r].status ==> WithStatus(s, r, status) != s
    ensures |WithStatus(s, r, status).runs| == |s.runs|
  {
    assert s.runs[r := s.runs[r]] == s.runs;
  }
}
