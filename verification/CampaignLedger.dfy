/** Which intent, if any, each step records, and what else it adds to the history. */
module CampaignLedger {
  import opened CampaignState
  import opened Wrappers

  predicate SameHistory(s: State, t: State) {
    t.intents == s.intents && t.applied == s.applied && t.published == s.published && t.executed == s.executed
  }

  /** At most this intent is recorded, and nothing else is added. */
  predicate Marks(s: State, t: State, key: Key) {
    && (t.intents == s.intents || (key !in s.intents && t.intents == s.intents + {key}))
    && t.applied == s.applied && t.published == s.published && t.executed == s.executed
  }

  /** This intent is recorded, now or before, and nothing else is added. */
  predicate Records(s: State, t: State, key: Key) {
    Marks(s, t, key) && key in t.intents
  }

  lemma TransactMarks(s: State, key: Key, body: State, cut: bool)
    requires SameHistory(s, body)
    ensures Records(s, Transact(s, key, body, cut), key)
  {
  }

  lemma SettleAddsNothing(s: State, r: RunId)
    requires r < |s.runs|
    ensures SameHistory(s, SettleDrain(s, r)) && SettleDrain(s, r).controls == s.controls
  {
  }

  /** The intent of a completed iteration. */
  function CompletionKey(draining: bool, d: DispatchId, isCompleted: bool, terminal: LoopState, hasResult: bool): Key {
    DispatchKey(d, if draining then (if hasResult then COMPLETE_DRAIN else FAIL_DRAIN)
                   else if isCompleted then COMPLETE
                   else FailOperation(terminal))
  }

  lemma CompleteMarks(s: State, r: RunId, d: DispatchId, isCompleted: bool, terminal: LoopState, hasResult: bool, cut: bool)
    requires r < |s.runs|
    ensures Records(s, CompleteIteration(s, r, d, isCompleted, terminal, hasResult, cut),
                    CompletionKey(s.runs[r].status.DRAINING?, d, isCompleted, terminal, hasResult))
  {
    hide Transact, SettleDrain, Records;
    var consumed := if hasResult then Consume(s, d) else s;
    SettleAddsNothing(consumed, r);
    if s.runs[r].status.DRAINING? {
      TransactMarks(s, DispatchKey(d, if hasResult then COMPLETE_DRAIN else FAIL_DRAIN), SettleDrain(consumed, r), cut);
    } else if isCompleted {
      TransactMarks(s, DispatchKey(d, COMPLETE), Consume(s, d), cut);
    } else {
      TransactMarks(s, DispatchKey(d, FailOperation(terminal)), WithRun(consumed, r, s.runs[r].(status := terminal, drain := NOT_DRAINING)), cut);
    }
  }

  /** Which state a failed turn ends the run in. */
  function FailureState(result: ExecutorStatus): LoopState {
    if result.EXECUTOR_BLOCKED? then BLOCKED else if result.EXECUTOR_NEEDS_HUMAN? then NEEDS_HUMAN else RECOVERY_REQUIRED
  }

  /** The intent of an executor's completion, if a run is active and there is a result or a drain. */
  function ExecutorKey(s: State, d: DispatchId, result: Option<ExecutorStatus>): Key {
    var active := ActiveRun(s.runs);
    if active.Some? && s.runs[active.value].status.DRAINING? then CompletionKey(true, d, false, RECOVERY_REQUIRED, result.Some?)
    else if result.None? then DispatchKey(d, FAIL_RECOVERY_REQUIRED)
    else CompletionKey(false, d, result.value.EXECUTOR_COMPLETED?, FailureState(result.value), true)
  }

  /** Only for an active run is anything recorded, and then with a result, or for a drain. */
  predicate ExecutorRecords(s: State, result: Option<ExecutorStatus>) {
    var active := ActiveRun(s.runs);
    active.Some? && (s.runs[active.value].status.DRAINING? || result.Some?)
  }

  lemma ExecutorMarks(s: State, d: DispatchId, result: Option<ExecutorStatus>, cut: bool)
    ensures Marks(s, ExecutorCompleted(s, d, result, cut), ExecutorKey(s, d, result))
    ensures ExecutorRecords(s, result) ==> ExecutorKey(s, d, result) in ExecutorCompleted(s, d, result, cut).intents
    ensures !ExecutorRecords(s, result) ==> ExecutorCompleted(s, d, result, cut).intents == s.intents
  {
    hide ActiveRun, CompleteIteration;
    var active := ActiveRun(s.runs);
    if active.Some? {
      CompleteMarks(s, active.value, d, false, RECOVERY_REQUIRED, result.Some?, cut);
      if result.Some? {
        CompleteMarks(s, active.value, d, result.value.EXECUTOR_COMPLETED?, FailureState(result.value), true, cut);
      }
    }
  }

  /** The intent of a strategy's completion. */
  function StrategyKey(s: State, c: Completion): Key {
    var active := ActiveRun(s.runs);
    CompletionKey(active.Some? && s.runs[active.value].status.DRAINING?, c.dispatch, c.status.STRATEGY_COMPLETED?,
                  if c.status.STRATEGY_PARTIAL? || c.status.STRATEGY_BLOCKED? then BLOCKED else RECOVERY_REQUIRED, true)
  }

  lemma BlockedAddsNothing(s: State, r: RunId)
    ensures SameHistory(s, PostflightBlocked(s, r))
  {
  }

  lemma StrategyMarks(s: State, c: Completion, cut: bool)
    ensures Marks(s, StrategyCompleted(s, c, cut), StrategyKey(s, c))
    ensures StrategyCompleted(s, c, cut).intents != s.intents ==>
      !IterationCompleted(s.intents, c.dispatch) && (c.status.STRATEGY_COMPLETED? ==> c.confirmed)
  {
    hide ActiveRun, IterationCompleted, PostflightBlocked, CompleteIteration;
    BlockedAddsNothing(s, c.runId);
    var active := ActiveRun(s.runs);
    if active.Some? {
      var terminal := if c.status.STRATEGY_PARTIAL? || c.status.STRATEGY_BLOCKED? then BLOCKED else RECOVERY_REQUIRED;
      CompleteMarks(s, active.value, c.dispatch, c.status.STRATEGY_COMPLETED?, terminal, true, cut);
    }
  }

  lemma RetryMarks(s: State, c: Completion, late: bool, cut: bool)
    ensures Marks(s, PostflightRetried(s, c, late, cut), DispatchKey(c.dispatch, POSTFLIGHT_COMPLETE))
    ensures PostflightRetried(s, c, late, cut).intents != s.intents ==> !IterationCompleted(s.intents, c.dispatch) && c.confirmed
  {
    hide IterationCompleted, PostflightBlocked;
    BlockedAddsNothing(s, c.runId);
  }

  /** A new dispatch records one of its two start intents. */
  lemma DispatchMarks(s: State, d: DispatchId, free: bool, cut: bool)
    ensures Marks(s, DispatchDetected(s, d, free, cut), DispatchKey(d, DISPATCH_START))
         || Marks(s, DispatchDetected(s, d, free, cut), DispatchKey(d, DISPATCH_DRAIN))
  {
    hide ActiveRun, SettleDrain, Transact;
    var active := ActiveRun(s.runs);
    SameMarks(s, DispatchKey(d, DISPATCH_START));
    if active.Some? && Correlated(s, active.value, d) {
      SettleAddsNothing(Consume(s, d), active.value);
      TransactMarks(s, DispatchKey(d, DISPATCH_DRAIN), SettleDrain(Consume(s, d), active.value), cut);
      TransactMarks(s, DispatchKey(d, DISPATCH_START), StartDispatch(s, active.value, d), cut);
    }
  }

  lemma SameMarks(s: State, key: Key)
    ensures Marks(s, s, key)
  {
  }

  /** A control is applied only together with its intent, which was not there before. */
  predicate MarksControl(s: State, t: State, c: ControlId) {
    && t.published == s.published && t.executed == s.executed
    && (t.intents == s.intents || (ControlKey(c) !in s.intents && t.intents == s.intents + {ControlKey(c)}))
    && (t.applied == s.applied || (t.applied == s.applied + [c] && t.intents != s.intents))
  }

  lemma ApplyMarks(s: State, body: State, c: ControlId, cut: bool)
    requires SameHistory(s, body) && c in body.controls
    ensures MarksControl(s, Transact(s, ControlKey(c), Apply(body, c), cut), c)
  {
  }

  lemma NoControlMarked(s: State, c: ControlId)
    ensures MarksControl(s, s, c) && (c in s.controls ==> MarksControl(s, Reject(s, c), c))
  {
  }

  lemma ControlMarks(s: State, c: ControlId, decision: Decision, strategyActive: bool, cut: bool)
    ensures MarksControl(s, ControlDetected(s, c, decision, strategyActive, cut), c)
  {
    hide ActiveRun, LatestStalledRun, SettleDrain, Transact, Apply, MarksControl;
    NoControlMarked(s, c);
    if c in s.controls && s.controls[c].status.Detected? && ControlValid(s, c, decision, strategyActive) {
      var r := ControlTarget(s, c).value;
      SettleAddsNothing(s, r);
      ApplyMarks(s, SettleDrain(s, r), c, cut);
      ApplyMarks(s, WithStatus(s, r, DecidedState(decision)), c, cut);
      ApplyMarks(s, WithRun(s, r, s.runs[r].(status := DecidedState(decision), drain := NOT_DRAINING)), c, cut);
    }
  }

  predicate IsSource(a: Action) {
    a.OnDispatchDetected? || a.OnControlDetected? || a.OnExecutorCompleted? || a.OnStrategyCompleted? || a.RetriesPostflight?
  }

  lemma CeilingAddsNothing(s: State, paused: bool)
    ensures SameHistory(s, CeilingFired(s, paused))
  {
    hide ActiveRun;
  }

  lemma StopsAddNothing(s: State, a: Action)
    requires a.StopRun? || a.PauseRun? || a.KillRun?
    ensures SameHistory(s, Handled(s, a))
  {
    hide ActiveRun;
  }

  lemma OperatorAddsNothing(s: State, a: Action)
    requires a.RecoverRun? || a.ManualStart?
    ensures SameHistory(s, Handled(s, a))
  {
  }

  lemma EventsAddNothing(s: State, a: Action)
    requires a.DispatchArrives? || a.ControlArrives? || a.RunStarts? || a.LaunchFails? || a.FinishesWake? || a.SolTimesOut?
             || a.NeedsAttention? || a.CrashController? || a.StartUp? || a.Publishes?
    ensures a.Publishes? || SameHistory(s, Handled(s, a))
    ensures a.Publishes? ==> Handled(s, a) == s.(published := s.published + {a.dispatch})
  {
    hide ActiveRun;
  }

  /** What is not a protocol source records no intent and applies no control. */
  lemma OthersRecordNothing(s: State, a: Action)
    requires !IsSource(a)
    ensures Handled(s, a).intents == s.intents && Handled(s, a).applied == s.applied && s.published <= Handled(s, a).published
    ensures !a.ResumeRun? && !a.DeliversStart? ==> Handled(s, a).executed == s.executed
  {
    hide StartDelivered, Resumed, CeilingFired;
    match a
    case CeilingTimer(paused) => CeilingAddsNothing(s, paused);
    case ResumeRun(strategyActive, launched) => ResumeAdds(s, strategyActive, launched);
    case DeliversStart(row, recorded, start) => DeliveryAdds(s, row, recorded, start);
    case _ =>
      hide Handled;
      if a.StopRun? || a.PauseRun? || a.KillRun? {
        StopsAddNothing(s, a);
      } else if a.RecoverRun? || a.ManualStart? {
        OperatorAddsNothing(s, a);
      } else {
        EventsAddNothing(s, a);
      }
  }

  lemma ResumeAdds(s: State, strategyActive: bool, launched: bool)
    ensures var t := Resumed(s, strategyActive, launched);
            t.intents == s.intents && t.applied == s.applied && t.published == s.published && t.dispatches == s.dispatches
            && t.executed == if launched && ResumeLaunches(s, strategyActive)
                             then s.executed + {s.runs[ActiveRun(s.runs).value].activeDispatch.value} else s.executed
  {
    hide ActiveRun;
  }

  lemma DeliveryAdds(s: State, row: StartRow, recorded: bool, start: StartOutcome)
    ensures var t := StartDelivered(s, row, recorded, start);
            t.intents == s.intents && t.applied == s.applied && t.published == s.published && t.dispatches == s.dispatches
            && (t.executed == s.executed || (IsSingleAgent(s, row.dispatch) && t.executed == s.executed + {row.dispatch}))
  {
  }

  lemma RestartAddsNothing(s: State, late: bool)
    ensures SameHistory(s, StartedUp(s, late))
  {
    hide ActiveRun, CeilingFired;
    var up := s.(running := true);
    CeilingAddsNothing(Mirrored(up), false);
    CeilingAddsNothing(CeilingFired(Mirrored(up), false), false);
  }
}
