/** Runs of the campaign loop, and what all but a few kinds of step keep. */
module CampaignSteps {
  import opened CampaignState
  import opened Wrappers

  ghost function After(actions: seq<Action>): State {
    if actions == [] then INITIAL else Step(After(actions[..|actions| - 1]), actions[|actions| - 1])
  }

  /** Every step of the run was taken in a state in which `good` allowed it. */
  ghost predicate Always(good: (State, Action) -> bool, actions: seq<Action>) {
    actions == []
    || (Always(good, actions[..|actions| - 1]) && good(After(actions[..|actions| - 1]), actions[|actions| - 1]))
  }

  lemma Snoc(actions: seq<Action>, a: Action)
    ensures After(actions + [a]) == Step(After(actions), a)
    ensures forall good :: Always(good, actions + [a]) <==> Always(good, actions) && good(After(actions), a)
  {
    assert (actions + [a])[..|actions + [a]| - 1] == actions;
  }

  lemma Extend(actions: seq<Action>, a: Action, t: State) returns (more: seq<Action>)
    requires Always(Enabled, actions) && Enabled(After(actions), a) && t == Step(After(actions), a)
    ensures more == actions + [a] && Always(Enabled, more) && After(more) == t
  {
    Snoc(actions, a);
    more := actions + [a];
  }

  // ---------- What all but three kinds of step keep ----------

  predicate IsStartKey(k: Key) {
    k.DispatchKey? && k.operation.DISPATCH_START?
  }

  predicate SameRow(before: Run, after: Run) {
    && before.iteration == after.iteration && before.activeDispatch == after.activeDispatch
    && (after.status.EXECUTOR_PENDING? ==> before.status.EXECUTOR_PENDING?)
  }

  predicate SameDispatch(before: Dispatch, after: Dispatch) {
    after == before || after == before.(consumed := true)
  }

  ghost predicate KeepsRuns(s: State, t: State) {
    |s.runs| == |t.runs| && forall r | 0 <= r < |s.runs| :: SameRow(s.runs[r], t.runs[r])
  }

  ghost predicate KeepsDispatches(s: State, t: State) {
    s.dispatches.Keys == t.dispatches.Keys && forall d | d in s.dispatches :: SameDispatch(s.dispatches[d], t.dispatches[d])
  }

  ghost predicate KeepsIntents(s: State, t: State) {
    s.intents <= t.intents && forall k | k in t.intents && k !in s.intents :: !IsStartKey(k)
  }

  ghost predicate Keeps(s: State, t: State) {
    && KeepsRuns(s, t) && KeepsDispatches(s, t) && KeepsIntents(s, t)
    && t.started == s.started && t.startRows == s.startRows && t.entries == s.entries && (t.running ==> s.running)
  }

  lemma KeepsItself(s: State)
    ensures Keeps(s, s)
  {
  }

  lemma RunKeeps(s: State, t: State, r: RunId, run: Run)
    requires Keeps(s, t) && r < |t.runs| && SameRow(t.runs[r], run)
    ensures Keeps(s, WithRun(t, r, run))
  {
  }

  lemma ConsumeKeeps(s: State, t: State, d: DispatchId)
    requires Keeps(s, t)
    ensures Keeps(s, Consume(t, d))
  {
  }

  lemma IntentKeeps(s: State, t: State, key: Key)
    requires Keeps(s, t) && !IsStartKey(key)
    ensures Keeps(s, t.(intents := t.intents + {key}))
  {
  }

  /** Pending marks, controls, applied controls and publications are not looked at. */
  lemma OthersKeep(s: State, t: State, u: State)
    requires Keeps(s, t)
    requires u == t.(running := u.running, stopPending := u.stopPending, ceilingPending := u.ceilingPending, controls := u.controls,
                     applied := u.applied, published := u.published, executed := u.executed)
    requires u.running ==> t.running
    ensures Keeps(s, u)
  {
  }

  lemma TransactKeeps(s: State, key: Key, body: State, cut: bool)
    requires Keeps(s, body) && !IsStartKey(key) && body.intents == s.intents
    ensures Keeps(s, Transact(s, key, body, cut))
  {
    hide KeepsRuns, KeepsDispatches, KeepsIntents;
    KeepsItself(s);
    IntentKeeps(s, s, key);
    IntentKeeps(s, body, key);
    var marked := s.(intents := s.intents + {key});
    OthersKeep(s, marked, Crashed(marked));
  }

  lemma SettleKeeps(s: State, t: State, r: RunId)
    requires Keeps(s, t) && r < |t.runs|
    ensures Keeps(s, SettleDrain(t, r)) && SettleDrain(t, r).intents == t.intents
  {
    hide KeepsRuns, KeepsDispatches, KeepsIntents;
    var drained := WithRun(t, r, DrainedRun(t, t.runs[r]));
    RunKeeps(s, t, r, drained.runs[r]);
    OthersKeep(s, drained, SettleDrain(t, r));
  }

  lemma StatusKeeps(s: State, t: State, r: RunId, status: LoopState)
    requires Keeps(s, t) && r < |t.runs| && !status.EXECUTOR_PENDING?
    ensures Keeps(s, WithStatus(t, r, status))
  {
    RunKeeps(s, t, r, t.runs[r].(status := status));
  }

  lemma CompleteKeeps(s: State, r: RunId, d: DispatchId, isCompleted: bool, terminal: LoopState, hasResult: bool, cut: bool)
    requires r < |s.runs| && IsTerminal(terminal)
    ensures Keeps(s, CompleteIteration(s, r, d, isCompleted, terminal, hasResult, cut))
  {
    hide KeepsRuns, KeepsDispatches, KeepsIntents, SettleDrain, Transact, Consume;
    KeepsItself(s);
    ConsumeKeeps(s, s, d);
    ConsumeTouches(s, d);
    if s.runs[r].status.DRAINING? {
      SettledKeeps(s, if hasResult then Consume(s, d) else s, r, DispatchKey(d, if hasResult then COMPLETE_DRAIN else FAIL_DRAIN), cut);
    } else if isCompleted {
      TransactKeeps(s, DispatchKey(d, COMPLETE), Consume(s, d), cut);
    } else {
      FailedKeeps(s, if hasResult then Consume(s, d) else s, r, DispatchKey(d, FailOperation(terminal)), terminal, cut);
    }
  }

  lemma ConsumeTouches(s: State, d: DispatchId)
    ensures Consume(s, d).runs == s.runs && Consume(s, d).intents == s.intents
  {
  }

  lemma SettledKeeps(s: State, t: State, r: RunId, key: Key, cut: bool)
    requires Keeps(s, t) && t.intents == s.intents && r < |t.runs| && !IsStartKey(key)
    ensures Keeps(s, Transact(s, key, SettleDrain(t, r), cut))
  {
    hide KeepsRuns, KeepsDispatches, KeepsIntents, Transact;
    SettleKeeps(s, t, r);
    TransactKeeps(s, key, SettleDrain(t, r), cut);
  }

  lemma FailedKeeps(s: State, t: State, r: RunId, key: Key, terminal: LoopState, cut: bool)
    requires Keeps(s, t) && t.intents == s.intents && r < |s.runs| && t.runs == s.runs && !IsStartKey(key) && IsTerminal(terminal)
    ensures Keeps(s, Transact(s, key, WithRun(t, r, s.runs[r].(status := terminal, drain := NOT_DRAINING)), cut))
  {
    hide KeepsRuns, KeepsDispatches, KeepsIntents, Transact;
    var failed := s.runs[r].(status := terminal, drain := NOT_DRAINING);
    RunKeeps(s, t, r, failed);
    TransactKeeps(s, key, WithRun(t, r, failed), cut);
  }

  lemma ExecutorCompletedKeeps(s: State, d: DispatchId, result: Option<ExecutorStatus>, cut: bool)
    ensures Keeps(s, ExecutorCompleted(s, d, result, cut))
  {
    hide KeepsRuns, KeepsDispatches, KeepsIntents, CompleteIteration;
    KeepsItself(s);
    var active := ActiveRun(s.runs);
    if active.Some? {
      var r := active.value;
      if s.runs[r].status.DRAINING? {
        CompleteKeeps(s, r, d, false, RECOVERY_REQUIRED, result.Some?, cut);
      } else if result.None? {
        StatusKeeps(s, s, r, RECOVERY_REQUIRED);
      } else {
        var terminal := if result.value.EXECUTOR_BLOCKED? then BLOCKED else if result.value.EXECUTOR_NEEDS_HUMAN? then NEEDS_HUMAN else RECOVERY_REQUIRED;
        CompleteKeeps(s, r, d, result.value.EXECUTOR_COMPLETED?, terminal, true, cut);
      }
    }
  }

  lemma PostflightBlockedKeeps(s: State, r: RunId)
    ensures Keeps(s, PostflightBlocked(s, r))
  {
    hide KeepsRuns, KeepsDispatches, KeepsIntents;
    KeepsItself(s);
    if r < |s.runs| {
      StatusKeeps(s, s, r, RECOVERY_REQUIRED);
      var blocked := WithRun(s, r, s.runs[r].(status := RECOVERY_REQUIRED, drain := NOT_DRAINING));
      RunKeeps(s, s, r, blocked.runs[r]);
      OthersKeep(s, blocked, blocked.(ceilingPending := false, stopPending := false));
    }
  }

  lemma StrategyCompletedKeeps(s: State, c: Completion, cut: bool)
    ensures Keeps(s, StrategyCompleted(s, c, cut))
  {
    hide KeepsRuns, KeepsDispatches, KeepsIntents, CompleteIteration, PostflightBlocked;
    KeepsItself(s);
    PostflightBlockedKeeps(s, c.runId);
    var active := ActiveRun(s.runs);
    if active.Some? {
      var terminal := if c.status.STRATEGY_PARTIAL? || c.status.STRATEGY_BLOCKED? then BLOCKED else RECOVERY_REQUIRED;
      CompleteKeeps(s, active.value, c.dispatch, c.status.STRATEGY_COMPLETED?, terminal, true, cut);
    }
  }

  lemma PostflightRetriedKeeps(s: State, c: Completion, late: bool, cut: bool)
    ensures Keeps(s, PostflightRetried(s, c, late, cut))
  {
    hide KeepsRuns, KeepsDispatches, KeepsIntents, PostflightBlocked;
    KeepsItself(s);
    PostflightBlockedKeeps(s, c.runId);
    ConsumeKeeps(s, s, c.dispatch);
    TransactKeeps(s, DispatchKey(c.dispatch, POSTFLIGHT_COMPLETE), Consume(s, c.dispatch), cut);
    var recorded := Transact(s, DispatchKey(c.dispatch, POSTFLIGHT_COMPLETE), Consume(s, c.dispatch), cut);
    if c.runId < |recorded.runs| {
      var closed := recorded.runs[c.runId].(status := CEILING_REACHED, drain := NOT_DRAINING);
      RunKeeps(s, recorded, c.runId, closed);
      var t := WithRun(recorded, c.runId, closed);
      OthersKeep(s, t, t.(ceilingPending := false));
    }
  }

  /** The three ways a valid control is applied. */
  lemma ApplyKeeps(s: State, t: State, c: ControlId, cut: bool)
    requires Keeps(s, t) && t.intents == s.intents && t.controls == s.controls && c in s.controls
    ensures Keeps(s, Transact(s, ControlKey(c), Apply(t, c), cut))
  {
    hide KeepsRuns, KeepsDispatches, KeepsIntents;
    OthersKeep(s, t, Apply(t, c));
    TransactKeeps(s, ControlKey(c), Apply(t, c), cut);
  }

  lemma ControlDetectedKeeps(s: State, c: ControlId, decision: Decision, strategyActive: bool, cut: bool)
    ensures Keeps(s, ControlDetected(s, c, decision, strategyActive, cut))
  {
    hide KeepsRuns, KeepsDispatches, KeepsIntents, Transact, Apply;
    KeepsItself(s);
    if c in s.controls && s.controls[c].status.Detected? {
      OthersKeep(s, s, Reject(s, c));
      if ControlValid(s, c, decision, strategyActive) {
        var r := ControlTarget(s, c).value;
        var decided := s.runs[r].(status := DecidedState(decision), drain := NOT_DRAINING);
        SettleKeeps(s, s, r);
        StatusKeeps(s, s, r, DecidedState(decision));
        RunKeeps(s, s, r, decided);
        ApplyKeeps(s, SettleDrain(s, r), c, cut);
        ApplyKeeps(s, WithStatus(s, r, DecidedState(decision)), c, cut);
        ApplyKeeps(s, WithRun(s, r, decided), c, cut);
      }
    }
  }

  lemma DrainKeeps(s: State, d: DispatchId, cut: bool, r: RunId)
    requires r < |s.runs|
    ensures Keeps(s, Transact(s, DispatchKey(d, DISPATCH_DRAIN), SettleDrain(Consume(s, d), r), cut))
  {
    hide KeepsRuns, KeepsDispatches, KeepsIntents;
    KeepsItself(s);
    ConsumeKeeps(s, s, d);
    SettleKeeps(s, Consume(s, d), r);
    TransactKeeps(s, DispatchKey(d, DISPATCH_DRAIN), SettleDrain(Consume(s, d), r), cut);
  }

  lemma CeilingKeeps(s: State, paused: bool)
    ensures Keeps(s, CeilingFired(s, paused))
  {
    hide KeepsRuns, KeepsDispatches, KeepsIntents;
    KeepsItself(s);
    var active := ActiveRun(s.runs);
    if active.Some? {
      var r, run := active.value, s.runs[active.value];
      var draining := if run.status.DRAINING? then run else run.(status := DRAINING, drain := WALL_CLOCK_CEILING);
      var closed := run.(status := CEILING_REACHED, drain := NOT_DRAINING);
      RunKeeps(s, s, r, draining);
      RunKeeps(s, s, r, closed);
      OthersKeep(s, WithRun(s, r, draining), WithRun(s, r, draining).(ceilingPending := true));
      OthersKeep(s, WithRun(s, r, closed), WithRun(s, r, closed).(ceilingPending := false));
    }
  }

  lemma StopKeeps(s: State, strategyActive: bool)
    ensures Keeps(s, StopRequested(s, strategyActive))
  {
    hide KeepsRuns, KeepsDispatches, KeepsIntents;
    KeepsItself(s);
    var active := ActiveRun(s.runs);
    if active.Some? {
      var r := active.value;
      var draining := s.runs[r].(status := DRAINING, drain := USER_STOP);
      RunKeeps(s, s, r, draining);
      RunKeeps(s, s, r, s.runs[r].(status := STOPPED, drain := NOT_DRAINING));
      OthersKeep(s, WithRun(s, r, draining), WithRun(s, r, draining).(stopPending := true));
    }
  }

  /** The dispatch is accepted: DISPATCH_START commits now. */
  predicate Accepts(s: State, a: Action) {
    && a.OnDispatchDetected? && !a.cut && a.ownershipFree
    && var active := ActiveRun(s.runs);
    && active.Some? && Correlated(s, active.value, a.dispatch)
    && SolActive(s.runs[active.value].status) && !DrainPending(s, s.runs[active.value])
    && DispatchKey(a.dispatch, DISPATCH_START) !in s.intents
  }

  /** The dispatch is accepted, but the process dies after DISPATCH_START is recorded and before it commits. */
  predicate Loses(s: State, a: Action) {
    a.OnDispatchDetected? && a.cut && Accepts(s, OnDispatchDetected(a.dispatch, a.ownershipFree, false))
  }

  lemma DispatchKeeps(s: State, d: DispatchId, free: bool, cut: bool)
    requires !Accepts(s, OnDispatchDetected(d, free, cut)) && !Loses(s, OnDispatchDetected(d, free, cut))
    ensures Keeps(s, DispatchDetected(s, d, free, cut))
  {
    hide KeepsRuns, KeepsDispatches, KeepsIntents;
    KeepsItself(s);
    if ActiveRun(s.runs).Some? {
      DrainKeeps(s, d, cut, ActiveRun(s.runs).value);
    }
  }

  /** The steps that set one run's status and nothing else that matters. */
  lemma StatusStepsKeep(s: State, a: Action)
    requires a.LaunchFails? || a.FinishesWake? || a.SolTimesOut? || a.NeedsAttention? || a.KillRun? || a.PauseRun? || a.RecoverRun? || a.ManualStart?
    ensures Keeps(s, Handled(s, a))
  {
    hide KeepsRuns, KeepsDispatches, KeepsIntents;
    KeepsItself(s);
    forall r: RunId, status: LoopState | r < |s.runs| && !status.EXECUTOR_PENDING?
      ensures Keeps(s, WithStatus(s, r, status))
    {
      StatusKeeps(s, s, r, status);
    }
  }

  lemma ResumeKeeps(s: State, strategyActive: bool, launched: bool)
    ensures Keeps(s, Resumed(s, strategyActive, launched))
  {
    hide KeepsRuns, KeepsDispatches, KeepsIntents;
    KeepsItself(s);
    if ActiveRun(s.runs).Some? {
      StatusKeeps(s, s, ActiveRun(s.runs).value, EXECUTING);
      StatusKeeps(s, s, ActiveRun(s.runs).value, EXECUTOR_UNAVAILABLE);
      var t := WithStatus(s, ActiveRun(s.runs).value, EXECUTING);
      OthersKeep(s, t, Resumed(s, strategyActive, launched).(runs := t.runs));
    }
  }

  lemma HandledKeeps(s: State, a: Action)
    requires !a.RunStarts? && !a.DispatchArrives? && !a.DeliversStart? && !Accepts(s, a) && !Loses(s, a)
    ensures Keeps(s, Handled(s, a))
  {
    hide KeepsRuns, KeepsDispatches, KeepsIntents;
    hide DispatchDetected, ExecutorCompleted, StrategyCompleted, PostflightRetried, ControlDetected, CeilingFired, StopRequested, Resumed;
    KeepsItself(s);
    match a
    case OnDispatchDetected(d, free, cut) => DispatchKeeps(s, d, free, cut);
    case OnExecutorCompleted(d, result, cut) => ExecutorCompletedKeeps(s, d, result, cut);
    case OnStrategyCompleted(c, cut) => StrategyCompletedKeeps(s, c, cut);
    case RetriesPostflight(c, late, cut) => PostflightRetriedKeeps(s, c, late, cut);
    case OnControlDetected(c, decision, strategyActive, cut) => ControlDetectedKeeps(s, c, decision, strategyActive, cut);
    case CeilingTimer(paused) => CeilingKeeps(s, paused);
    case StopRun(strategyActive) => StopKeeps(s, strategyActive);
    case ResumeRun(strategyActive, launched) => ResumeKeeps(s, strategyActive, launched);
    case Publishes(d) => OthersKeep(s, s, s.(published := s.published + {d}));
    case ControlArrives(c, signal) =>
      OthersKeep(s, s, s.(controls := s.controls[c := signal.(status := Detected)]));
    case CrashController => OthersKeep(s, s, Crashed(s));
    case StartUp(_) =>
    case _ => StatusStepsKeep(s, a);
  }

  lemma MirrorKeeps(s: State)
    ensures Keeps(s, Mirrored(s)) && Mirrored(s).runs == s.runs
  {
    hide KeepsRuns, KeepsDispatches, KeepsIntents;
    KeepsItself(s);
    OthersKeep(s, s, Mirrored(s));
  }

  lemma KeepsTwice(s: State, t: State, u: State)
    requires Keeps(s, t) && Keeps(t, u)
    ensures Keeps(s, u)
  {
  }

  lemma RehydrationKeeps(s: State, late: bool)
    ensures Keeps(s, Rehydrated(s, late))
  {
    hide KeepsRuns, KeepsDispatches, KeepsIntents, Mirrored, CeilingFired;
    MirrorKeeps(s);
    var once := CeilingFired(Mirrored(s), false);
    CeilingKeeps(Mirrored(s), false);
    CeilingKeeps(once, false);
    KeepsTwice(s, Mirrored(s), once);
    KeepsTwice(s, once, CeilingFired(once, false));
  }

  lemma StartUpKeeps(s: State, late: bool)
    ensures Keeps(s.(running := true), StartedUp(s, late))
  {
    hide KeepsRuns, KeepsDispatches, KeepsIntents, Rehydrated;
    var up := s.(running := true);
    RehydrationKeeps(up, late);
    var t := Rehydrated(up, late);
    if ActiveRun(t.runs).Some? {
      StatusKeeps(up, t, ActiveRun(t.runs).value, RECOVERY_REQUIRED);
    }
  }

  lemma CeilingEndsExecutor(s: State, r: RunId)
    requires r < |s.runs|
    ensures |CeilingFired(s, false).runs| == |s.runs|
    ensures ActiveRun(s.runs) == Some(r) || !ExecutorActive(s.runs[r].status) ==> !ExecutorActive(CeilingFired(s, false).runs[r].status)
  {
  }

  /** A restart leaves the run that was active without an executor. */
  lemma StartUpEndsExecutor(s: State, late: bool)
    requires ActiveRun(s.runs).Some?
    ensures |StartedUp(s, late).runs| == |s.runs|
    ensures !ExecutorActive(StartedUp(s, late).runs[ActiveRun(s.runs).value].status)
  {
    hide KeepsRuns, KeepsDispatches, KeepsIntents, CeilingFired, Mirrored;
    var up, r := s.(running := true), ActiveRun(s.runs).value;
    MirrorKeeps(up);
    var once := CeilingFired(Mirrored(up), false);
    CeilingEndsExecutor(Mirrored(up), r);
    CeilingEndsExecutor(once, r);
  }
}
