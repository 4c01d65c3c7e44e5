/** What a recorded success of a strategy dispatch means. */
module CampaignSuccess {
  import opened CampaignIterations
  import opened CampaignLedger
  import opened CampaignState
  import opened CampaignSteps
  import opened Wrappers

  predicate IsOutcome(op: Operation) {
    !op.DISPATCH_START? && !op.DISPATCH_DRAIN?
  }

  predicate IsSuccess(op: Operation) {
    op.COMPLETE? || op.POSTFLIGHT_COMPLETE?
  }

  predicate Recorded(s: State, d: DispatchId, op: Operation) {
    DispatchKey(d, op) in s.intents
  }

  /** hasSuccessfulCompletionFor. */
  predicate Succeeded(s: State, d: DispatchId) {
    Recorded(s, d, COMPLETE) || Recorded(s, d, POSTFLIGHT_COMPLETE)
  }

  /** At most one outcome was recorded for the dispatch, and a success only after its publication. */
  ghost predicate SettledOnce(s: State, d: DispatchId) {
    && (forall op, other | IsOutcome(op) && IsOutcome(other) && Recorded(s, d, op) && Recorded(s, d, other) :: op == other)
    && (Succeeded(s, d) ==> d in s.published)
  }

  /** A resume without a live strategy only launches the executor on a dispatch that was made for it. */
  predicate ResumesOnlySingleAgent(s: State, a: Action) {
    && a.ResumeRun? && s.running && a.launched && ResumeLaunches(s, a.strategyActive)
    ==> IsSingleAgent(s, s.runs[ActiveRun(s.runs).value].activeDispatch.value)
  }

  ghost predicate ExecutedSingleAgent(s: State) {
    forall d | d in s.executed :: IsSingleAgent(s, d)
  }

  // ---------- The invariant ----------

  /** No outcome of d was recorded by this step, and no publication was lost. */
  lemma SettledKept(s: State, t: State, d: DispatchId)
    requires SettledOnce(s, d) && s.published <= t.published
    requires forall k | k in t.intents && k !in s.intents && k.DispatchKey? && k.dispatch == d :: !IsOutcome(k.operation)
    ensures SettledOnce(t, d)
  {
    forall op | IsOutcome(op) && Recorded(t, d, op)
      ensures Recorded(s, d, op)
    {
      assert DispatchKey(d, op) in t.intents;
    }
  }

  /** The first outcome of d, a success only if it is published. */
  lemma SettledNow(s: State, t: State, d: DispatchId, op: Operation)
    requires !IterationCompleted(s.intents, d) && t.intents == s.intents + {DispatchKey(d, op)}
    requires IsSuccess(op) ==> d in t.published
    ensures SettledOnce(t, d)
  {
    forall other | IsOutcome(other) && Recorded(t, d, other)
      ensures other == op
    {
      assert other != op ==> DispatchKey(d, other) in s.intents;
    }
  }

  lemma StrategySettles(s: State, c: Completion, cut: bool, d: DispatchId)
    requires SettledOnce(s, d) && (c.confirmed ==> c.dispatch in s.published)
    ensures SettledOnce(StrategyCompleted(s, c, cut), d)
  {
    StrategyMarks(s, c, cut);
    var t := StrategyCompleted(s, c, cut);
    hide StrategyCompleted, SettledOnce, ActiveRun, IterationCompleted;
    if c.dispatch == d && t.intents != s.intents {
      SettledNow(s, t, d, StrategyKey(s, c).operation);
    } else {
      SettledKept(s, t, d);
    }
  }

  lemma RetrySettles(s: State, c: Completion, late: bool, cut: bool, d: DispatchId)
    requires SettledOnce(s, d) && (c.confirmed ==> c.dispatch in s.published)
    ensures SettledOnce(PostflightRetried(s, c, late, cut), d)
  {
    RetryMarks(s, c, late, cut);
    var t := PostflightRetried(s, c, late, cut);
    hide PostflightRetried, SettledOnce, IterationCompleted;
    if c.dispatch == d && t.intents != s.intents {
      SettledNow(s, t, d, POSTFLIGHT_COMPLETE);
    } else {
      SettledKept(s, t, d);
    }
  }

  lemma HandledSettles(s: State, a: Action, d: DispatchId)
    requires SettledOnce(s, d) && Enabled(s, a) && (a.OnExecutorCompleted? ==> a.dispatch != d)
    ensures SettledOnce(Handled(s, a), d)
  {
    hide SettledOnce, DispatchDetected, ExecutorCompleted, StrategyCompleted, PostflightRetried, ControlDetected;
    match a
    case OnStrategyCompleted(c, cut) => StrategySettles(s, c, cut, d);
    case RetriesPostflight(c, late, cut) => RetrySettles(s, c, late, cut, d);
    case OnDispatchDetected(e, free, cut) =>
      DispatchMarks(s, e, free, cut);
      SettledKept(s, Handled(s, a), d);
    case OnExecutorCompleted(e, result, cut) =>
      ExecutorMarks(s, e, result, cut);
      SettledKept(s, Handled(s, a), d);
    case OnControlDetected(c, decision, strategyActive, cut) =>
      ControlMarks(s, c, decision, strategyActive, cut);
      SettledKept(s, Handled(s, a), d);
    case _ =>
      hide Handled;
      OthersRecordNothing(s, a);
      SettledKept(s, Handled(s, a), d);
  }

  /** The executor is launched on a dispatch made for it, or by a resume on the active one. */
  lemma ExecutedNow(s: State, a: Action, d: DispatchId)
    requires d in Handled(s, a).executed && d !in s.executed
    ensures IsSingleAgent(s, d)
         || (a.ResumeRun? && a.launched && ResumeLaunches(s, a.strategyActive) && d == s.runs[ActiveRun(s.runs).value].activeDispatch.value)
  {
    hide DispatchDetected, ExecutorCompleted, StrategyCompleted, PostflightRetried, ControlDetected, StartDelivered, Resumed;
    match a
    case ResumeRun(strategyActive, launched) => ResumeAdds(s, strategyActive, launched);
    case DeliversStart(row, recorded, start) => DeliveryAdds(s, row, recorded, start);
    case OnDispatchDetected(e, free, cut) => DispatchMarks(s, e, free, cut);
    case OnExecutorCompleted(e, result, cut) => ExecutorMarks(s, e, result, cut);
    case OnStrategyCompleted(c, cut) => StrategyMarks(s, c, cut);
    case RetriesPostflight(c, late, cut) => RetryMarks(s, c, late, cut);
    case OnControlDetected(c, decision, strategyActive, cut) => ControlMarks(s, c, decision, strategyActive, cut);
    case _ =>
      hide Handled;
      OthersRecordNothing(s, a);
  }

  lemma SingleAgentStays(s: State, a: Action, d: DispatchId)
    requires IsSingleAgent(s, d)
    ensures IsSingleAgent(Step(s, a), d)
  {
    hide Step;
    StepKeepsMarker(s, a, d);
  }

  lemma StepExecutes(s: State, a: Action, d: DispatchId)
    requires ExecutedSingleAgent(s) && ResumesOnlySingleAgent(s, a) && d in Step(s, a).executed
    ensures IsSingleAgent(Step(s, a), d)
  {
    hide Handled, StartedUp;
    if s.running && d !in s.executed {
      ExecutedNow(s, a, d);
    } else if !s.running && a.StartUp? {
      RestartAddsNothing(s, a.pastDeadline);
    }
    SingleAgentStays(s, a, d);
  }

  lemma StepSettles(s: State, a: Action, d: DispatchId)
    requires ExecutedSingleAgent(s) && Enabled(s, a) && !IsSingleAgent(Step(s, a), d) && (!IsSingleAgent(s, d) ==> SettledOnce(s, d))
    ensures SettledOnce(Step(s, a), d)
  {
    hide Handled, StartedUp, SettledOnce, IsSingleAgent;
    if IsSingleAgent(s, d) {
      SingleAgentStays(s, a, d);
    } else if s.running {
      HandledSettles(s, a, d);
    } else if a.StartUp? {
      RestartAddsNothing(s, a.pastDeadline);
      SettledKept(s, StartedUp(s, a.pastDeadline), d);
    }
  }

  /**
   * Over every run in which no resume launches the executor on a strategy's dispatch: live callbacks, duplicates and
   * retry sweeps together record at most one outcome for a strategy dispatch, and a success only if some publication
   * of it was PUBLISHED and verified.
   */
  lemma {:induction false} StrategySuccessIsPublished(actions: seq<Action>, d: DispatchId)
    requires Always(Enabled, actions) && Always(ResumesOnlySingleAgent, actions)
    ensures ExecutedSingleAgent(After(actions))
    ensures !IsSingleAgent(After(actions), d) ==> SettledOnce(After(actions), d)
  {
    hide Step, IsSingleAgent;
    if actions != [] {
      var before, a := actions[..|actions| - 1], actions[|actions| - 1];
      StrategySuccessIsPublished(before, d);
      forall e | e in After(actions).executed
        ensures IsSingleAgent(After(actions), e)
      {
        StepExecutes(After(before), a, e);
      }
      if !IsSingleAgent(After(actions), d) {
        StepSettles(After(before), a, d);
      }
    }
  }

  // ---------- The condition is needed ----------

  /** Where a newly recorded outcome comes from. */
  lemma OutcomeSource(s: State, a: Action, d: DispatchId, op: Operation)
    requires IsOutcome(op) && Recorded(Handled(s, a), d, op) && !Recorded(s, d, op)
    ensures || (a.OnExecutorCompleted? && a.dispatch == d && ExecutorRecords(s, a.result) && DispatchKey(d, op) == ExecutorKey(s, d, a.result))
            || (&& a.OnStrategyCompleted? && a.completion.dispatch == d && !IterationCompleted(s.intents, d)
                && (op.COMPLETE? ==> a.completion.confirmed) && !op.POSTFLIGHT_COMPLETE?)
            || (a.RetriesPostflight? && a.completion.dispatch == d && !IterationCompleted(s.intents, d) && a.completion.confirmed)
  {
    hide ActiveRun, DispatchDetected, ExecutorCompleted, StrategyCompleted, PostflightRetried, ControlDetected, IterationCompleted, ExecutorRecords, ExecutorKey;
    match a
    case OnStrategyCompleted(c, cut) => StrategyMarks(s, c, cut);
    case RetriesPostflight(c, late, cut) => RetryMarks(s, c, late, cut);
    case OnDispatchDetected(e, free, cut) => DispatchMarks(s, e, free, cut);
    case OnExecutorCompleted(e, result, cut) =>
      ExecutorMarks(s, e, result, cut);
      ExecutorKeyNames(s, e, result);
    case OnControlDetected(c, decision, strategyActive, cut) => ControlMarks(s, c, decision, strategyActive, cut);
    case _ =>
      hide Handled;
      OthersRecordNothing(s, a);
  }

  lemma ExecutorKeyNames(s: State, d: DispatchId, result: Option<ExecutorStatus>)
    ensures ExecutorKey(s, d, result).DispatchKey? && ExecutorKey(s, d, result).dispatch == d && IsOutcome(ExecutorKey(s, d, result).operation)
  {
    hide ActiveRun;
  }

  ghost predicate NewOutcome(s: State, t: State, d: DispatchId) {
    exists op :: IsOutcome(op) && Recorded(t, d, op) && !Recorded(s, d, op)
  }

  /**
   * Of a dispatch that already has an outcome, a step records a second one if and only if the executor completes it,
   * with a result or for a drain, for an active run and under a key not yet recorded.
   */
  lemma SecondOutcomeIff(s: State, a: Action, d: DispatchId)
    requires s.running && IterationCompleted(s.intents, d)
    ensures NewOutcome(s, Step(s, a), d) <==>
      a.OnExecutorCompleted? && a.dispatch == d && ExecutorRecords(s, a.result) && ExecutorKey(s, d, a.result) !in s.intents
  {
    hide ActiveRun, Handled, ExecutorRecords, ExecutorKey, IterationCompleted;
    if NewOutcome(s, Step(s, a), d) {
      var op :| IsOutcome(op) && Recorded(Step(s, a), d, op) && !Recorded(s, d, op);
      OutcomeSource(s, a, d, op);
    }
    if a.OnExecutorCompleted? && a.dispatch == d && ExecutorRecords(s, a.result) && ExecutorKey(s, d, a.result) !in s.intents {
      HandledExecutor(s, a);
      ExecutorMarks(s, d, a.result, a.cut);
      ExecutorKeyNames(s, d, a.result);
      assert Recorded(Step(s, a), d, ExecutorKey(s, d, a.result).operation);
    }
  }

  lemma HandledExecutor(s: State, a: Action)
    requires a.OnExecutorCompleted?
    ensures Handled(s, a) == ExecutorCompleted(s, a.dispatch, a.result, a.cut)
  {
  }

  /** The only step that records the success of an unpublished dispatch: the executor completed it for an active, undrained run. */
  lemma UnpublishedSuccessIff(s: State, a: Action, d: DispatchId)
    requires s.running && Enabled(s, a) && d !in s.published && !Succeeded(s, d)
    ensures Succeeded(Step(s, a), d) <==>
      && a.OnExecutorCompleted? && a.dispatch == d && a.result == Some(EXECUTOR_COMPLETED)
      && ActiveRun(s.runs).Some? && !s.runs[ActiveRun(s.runs).value].status.DRAINING?
  {
    hide ActiveRun, Handled, IterationCompleted;
    if Succeeded(Step(s, a), d) {
      OutcomeSource(s, a, d, if Recorded(Step(s, a), d, COMPLETE) then COMPLETE else POSTFLIGHT_COMPLETE);
    }
    if a.OnExecutorCompleted? && a.dispatch == d && a.result == Some(EXECUTOR_COMPLETED) {
      HandledExecutor(s, a);
      ExecutorMarks(s, d, a.result, a.cut);
    }
  }

  /** A repository with one run, nothing pending, and the SWARM dispatch "d" as far as it got. */
  predicate OneRun(s: State, status: LoopState) {
    && s.running && !s.stopPending && !s.ceilingPending && s.published == {}
    && s.runs == [Run(status, 1, 5, Some("d"), NOT_DRAINING)]
    && ActiveRun(s.runs) == (if IsTerminal(status) then None else Some(0))
    && "d" in s.dispatches && s.dispatches["d"].strategy.SWARM?
  }

  lemma ActiveOfOne(run: Run)
    ensures ActiveRun([run]) == if IsTerminal(run.status) then None else Some(0)
  {
    assert [run][..0] == [];
  }

  lemma ExtendSingle(actions: seq<Action>, a: Action, t: State) returns (more: seq<Action>)
    requires Always(Enabled, actions) && Enabled(After(actions), a) && t == Step(After(actions), a)
    requires Always(ResumesOnlySingleAgent, actions) && ResumesOnlySingleAgent(After(actions), a)
    ensures more == actions + [a] && Always(Enabled, more) && Always(ResumesOnlySingleAgent, more) && After(more) == t
  {
    more := Extend(actions, a, t);
    Snoc(actions, a);
  }

  function Arrived(): State {
    INITIAL.(runs := [Run(SOL_PENDING, 0, 5, None, NOT_DRAINING)], started := [[]], dispatches := map["d" := Dispatch(0, 1, SWARM, false)])
  }

  lemma SwarmArrives() returns (actions: seq<Action>)
    ensures Always(Enabled, actions) && Always(ResumesOnlySingleAgent, actions) && After(actions) == Arrived()
  {
    actions := ExtendSingle([], RunStarts(5), Arrived().(dispatches := map[]));
    hide After, Always;
    actions := ExtendSingle(actions, DispatchArrives("d", Dispatch(0, 1, SWARM, false)), Arrived());
  }

  function Accepted(): State {
    StartDispatch(Arrived(), 0, "d").(intents := {DispatchKey("d", DISPATCH_START)})
  }

  lemma ArrivedIsAccepted()
    ensures DispatchDetected(Arrived(), "d", true, false) == Accepted()
  {
    ActiveOfOne(Arrived().runs[0]);
    assert Arrived().intents + {DispatchKey("d", DISPATCH_START)} == {DispatchKey("d", DISPATCH_START)};
  }

  lemma SwarmStarts() returns (actions: seq<Action>)
    ensures Always(Enabled, actions) && Always(ResumesOnlySingleAgent, actions)
    ensures OneRun(After(actions), EXECUTING) && After(actions).controls == map[] && After(actions).intents == {DispatchKey("d", DISPATCH_START)}
  {
    actions := SwarmArrives();
    hide After, Always, DispatchDetected;
    ArrivedIsAccepted();
    actions := ExtendSingle(actions, OnDispatchDetected("d", true, false), Accepted());
    actions := ExtendSingle(actions, DeliversStart(StartRow(0, "d"), false, Launched), EnterStart(Accepted(), 0, "d", Launched));
    ActiveOfOne(Accepted().runs[0].(status := EXECUTING));
  }

  /** The strategy fails, which ends the run for now. */
  lemma SwarmFails() returns (actions: seq<Action>)
    ensures Always(Enabled, actions) && Always(ResumesOnlySingleAgent, actions)
    ensures OneRun(After(actions), RECOVERY_REQUIRED) && After(actions).controls == map[]
    ensures After(actions).intents == {DispatchKey("d", DISPATCH_START), DispatchKey("d", FAIL_RECOVERY_REQUIRED)}
  {
    actions := SwarmStarts();
    hide After, Always;
    var s := After(actions);
    var failed := CompleteIteration(s, 0, "d", false, RECOVERY_REQUIRED, true, false);
    ActiveOfOne(s.runs[0].(status := RECOVERY_REQUIRED));
    actions := ExtendSingle(actions, OnStrategyCompleted(Completion("d", 0, STRATEGY_FAILED, false), false), failed);
  }

  /** The operator retries, and Sol reviews. */
  lemma SwarmReviewed() returns (actions: seq<Action>)
    ensures Always(Enabled, actions) && Always(ResumesOnlySingleAgent, actions)
    ensures OneRun(After(actions), SOL_REVIEWING) && After(actions).controls == map[]
    ensures After(actions).intents == {DispatchKey("d", DISPATCH_START), DispatchKey("d", FAIL_RECOVERY_REQUIRED)}
  {
    actions := SwarmFails();
    hide After, Always;
    var retried := WithStatus(After(actions), 0, SOL_PENDING);
    ActiveOfOne(retried.runs[0]);
    actions := ExtendSingle(actions, RecoverRun(RecoverRetry, false), retried);
    var woken := WithStatus(retried, 0, SOL_REVIEWING);
    ActiveOfOne(woken.runs[0]);
    actions := ExtendSingle(actions, FinishesWake(0, Submitted, false, false), woken);
  }

  /** Sol pauses the campaign. */
  lemma SwarmPauses() returns (actions: seq<Action>)
    ensures Always(Enabled, actions) && Always(ResumesOnlySingleAgent, actions) && OneRun(After(actions), PAUSED)
    ensures Recorded(After(actions), "d", FAIL_RECOVERY_REQUIRED) && !Recorded(After(actions), "d", COMPLETE)
  {
    actions := SwarmSignalled();
    hide After, Always, ControlDetected;
    var signalled := After(actions);
    PauseApplies(signalled);
    var paused := Apply(WithStatus(signalled, 0, PAUSED), "c");
    ActiveOfOne(paused.runs[0]);
    actions := ExtendSingle(actions, OnControlDetected("c", DecidePaused, false, false), paused.(intents := paused.intents + {ControlKey("c")}));
  }

  lemma SwarmSignalled() returns (actions: seq<Action>)
    ensures Always(Enabled, actions) && Always(ResumesOnlySingleAgent, actions)
    ensures OneRun(After(actions), SOL_REVIEWING) && After(actions).controls == map["c" := Control(true, 0, 1, None, Detected)]
    ensures After(actions).intents == {DispatchKey("d", DISPATCH_START), DispatchKey("d", FAIL_RECOVERY_REQUIRED)}
  {
    actions := SwarmReviewed();
    hide After, Always;
    var signal := Control(true, 0, 1, None, Detected);
    actions := ExtendSingle(actions, ControlArrives("c", signal), After(actions).(controls := map["c" := signal]));
  }

  lemma PauseApplies(s: State)
    requires OneRun(s, SOL_REVIEWING) && s.controls == map["c" := Control(true, 0, 1, None, Detected)] && ControlKey("c") !in s.intents
    ensures ControlDetected(s, "c", DecidePaused, false, false)
         == Apply(WithStatus(s, 0, PAUSED), "c").(intents := s.intents + {ControlKey("c")})
  {
  }

  /** Resuming then hands the strategy's dispatch to the executor, which completes it: a second outcome, and unpublished. */
  lemma ResumeCanBypassPublication() returns (actions: seq<Action>)
    ensures Always(Enabled, actions)
    ensures "d" in After(actions).dispatches && !IsSingleAgent(After(actions), "d")
    ensures Succeeded(After(actions), "d") && "d" !in After(actions).published
    ensures Recorded(After(actions), "d", COMPLETE) && Recorded(After(actions), "d", FAIL_RECOVERY_REQUIRED)
  {
    actions := SwarmPauses();
    var s := After(actions);
    hide After, Always;
    var resumed := WithStatus(s, 0, EXECUTING).(executed := s.executed + {"d"});
    actions := Extend(actions, ResumeRun(false, true), resumed);
    ActiveOfOne(resumed.runs[0]);
    var completed := CompleteIteration(resumed, 0, "d", true, RECOVERY_REQUIRED, true, false);
    actions := Extend(actions, OnExecutorCompleted("d", Some(EXECUTOR_COMPLETED), false), completed);
  }
}
