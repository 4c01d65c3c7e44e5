/** A run that drains for a persisted reason goes nowhere but to a terminal state. */
module CampaignDrain {
  import opened CampaignState
  import opened CampaignEndings
  import opened CampaignSteps

  predicate StillDraining(s: State, r: RunId) {
    r < |s.runs| && s.runs[r].status.DRAINING? && !s.runs[r].drain.NOT_DRAINING?
  }

  predicate Ended(s: State, r: RunId) {
    r < |s.runs| && IsTerminal(s.runs[r].status)
  }

  predicate DrainsOn(s: State, r: RunId) {
    StillDraining(s, r) || Ended(s, r)
  }

  lemma EndingDrains(s: State, t: State, r: RunId)
    requires OnlyEnds(s, t) && DrainsOn(s, r)
    ensures DrainsOn(t, r)
  {
    EndsAt(s, t, r);
  }

  lemma TransactDrains(s: State, key: Key, body: State, cut: bool, r: RunId)
    requires DrainsOn(s, r) && DrainsOn(body, r)
    ensures DrainsOn(Transact(s, key, body, cut), r)
  {
  }

  lemma ControlDetectedDrains(s: State, c: ControlId, decision: Decision, strategyActive: bool, cut: bool, r: RunId)
    requires StillDraining(s, r)
    ensures DrainsOn(ControlDetected(s, c, decision, strategyActive, cut), r)
  {
    hide SettleDrain, Transact, OnlyEnds;
    if c in s.controls && ControlValid(s, c, decision, strategyActive) {
      var q := ControlTarget(s, c).value;
      SettleEnds(s, s, q);
      EndingDrains(s, SettleDrain(s, q), r);
      SettledControls(s, q);
      TransactDrains(s, ControlKey(c), Apply(SettleDrain(s, q), c), cut, r);
      if q != r {
        TransactDrains(s, ControlKey(c), Apply(WithStatus(s, q, DecidedState(decision)), c), cut, r);
        var decided := WithRun(s, q, s.runs[q].(status := DecidedState(decision), drain := NOT_DRAINING));
        TransactDrains(s, ControlKey(c), Apply(decided, c), cut, r);
      }
    }
  }

  lemma DispatchDetectedDrains(s: State, d: DispatchId, free: bool, cut: bool, r: RunId)
    requires StillDraining(s, r)
    ensures DrainsOn(DispatchDetected(s, d, free, cut), r)
  {
    hide SettleDrain, Transact, OnlyEnds;
    var active := ActiveRun(s.runs);
    if active.Some? && Correlated(s, active.value, d) {
      SettleEnds(s, Consume(s, d), active.value);
      EndingDrains(s, SettleDrain(Consume(s, d), active.value), r);
      TransactDrains(s, DispatchKey(d, DISPATCH_DRAIN), SettleDrain(Consume(s, d), active.value), cut, r);
      if active.value != r {
        TransactDrains(s, DispatchKey(d, DISPATCH_START), StartDispatch(s, active.value, d), cut, r);
      }
    }
  }

  lemma CeilingDrains(s: State, paused: bool, r: RunId)
    requires DrainsOn(s, r)
    ensures DrainsOn(CeilingFired(s, paused), r)
  {
  }

  lemma StartUpDrains(s: State, late: bool, r: RunId)
    requires StillDraining(s, r)
    ensures DrainsOn(StartedUp(s, late), r)
  {
    hide CeilingFired;
    var up := s.(running := true);
    CeilingDrains(Mirrored(up), false, r);
    CeilingDrains(CeilingFired(Mirrored(up), false), false, r);
  }

  /** The completions of executors and strategies, live or retried. */
  lemma CompletionDrains(s: State, a: Action, r: RunId)
    requires StillDraining(s, r) && (a.OnExecutorCompleted? || a.OnStrategyCompleted? || a.RetriesPostflight?)
    ensures DrainsOn(Handled(s, a), r)
  {
    hide ExecutorCompleted, StrategyCompleted, PostflightRetried, OnlyEnds;
    match a
    case OnExecutorCompleted(d, result, cut) =>
      ExecutorCompletedEnds(s, d, result, cut);
      EndingDrains(s, ExecutorCompleted(s, d, result, cut), r);
    case OnStrategyCompleted(c, cut) =>
      StrategyCompletedEnds(s, c, cut);
      EndingDrains(s, StrategyCompleted(s, c, cut), r);
    case RetriesPostflight(c, late, cut) =>
      PostflightRetriedEnds(s, c, late, cut);
      EndingDrains(s, PostflightRetried(s, c, late, cut), r);
  }

  lemma DeliveryDrains(s: State, row: StartRow, recorded: bool, start: StartOutcome, r: RunId)
    requires StillDraining(s, r)
    ensures DrainsOn(StartDelivered(s, row, recorded, start), r)
  {
  }

  lemma RequestDrains(s: State, a: Action, r: RunId)
    requires StillDraining(s, r) && (a.StopRun? || a.PauseRun? || a.ResumeRun? || a.KillRun? || a.RecoverRun? || a.ManualStart?)
    ensures DrainsOn(Handled(s, a), r)
  {
    hide ActiveRun, StopRequested, PauseRequested, Resumed, Recovered;
    match a
    case StopRun(strategyActive) => StopDrains(s, strategyActive, r);
    case PauseRun(strategyActive) => PauseDrains(s, strategyActive, r);
    case ResumeRun(strategyActive, launched) => ResumeDrains(s, strategyActive, launched, r);
    case RecoverRun(how, evidence) => RecoverDrains(s, how, evidence, r);
    case _ =>
  }

  lemma PauseDrains(s: State, strategyActive: bool, r: RunId)
    requires StillDraining(s, r)
    ensures DrainsOn(PauseRequested(s, strategyActive), r)
  {
  }

  lemma ResumeDrains(s: State, strategyActive: bool, launched: bool, r: RunId)
    requires StillDraining(s, r)
    ensures DrainsOn(Resumed(s, strategyActive, launched), r)
  {
  }

  lemma RecoverDrains(s: State, how: Recovery, evidence: bool, r: RunId)
    requires StillDraining(s, r)
    ensures DrainsOn(Recovered(s, how, evidence), r)
  {
  }

  lemma StopDrains(s: State, strategyActive: bool, r: RunId)
    requires StillDraining(s, r)
    ensures DrainsOn(StopRequested(s, strategyActive), r)
  {
    hide ActiveRun;
  }

  /** Arrivals, browser events, crashes. */
  lemma EventDrains(s: State, a: Action, r: RunId)
    requires a.DispatchArrives? || a.ControlArrives? || a.RunStarts? || a.Publishes? || a.LaunchFails? || a.FinishesWake? || a.SolTimesOut?
             || a.NeedsAttention? || a.CrashController? || a.StartUp?
    requires StillDraining(s, r)
    ensures DrainsOn(Handled(s, a), r)
  {
  }

  /** Whatever happens next, a draining run still drains or has ended. */
  lemma StepDrains(s: State, a: Action, r: RunId)
    requires StillDraining(s, r)
    ensures DrainsOn(Step(s, a), r)
  {
    hide DispatchDetected, ControlDetected, CeilingFired, StartDelivered, StartedUp, ExecutorCompleted, StrategyCompleted, PostflightRetried;
    if s.running {
      match a
      case OnDispatchDetected(d, free, cut) => DispatchDetectedDrains(s, d, free, cut, r);
      case OnControlDetected(c, decision, strategyActive, cut) => ControlDetectedDrains(s, c, decision, strategyActive, cut, r);
      case CeilingTimer(paused) => CeilingDrains(s, paused, r);
      case DeliversStart(row, recorded, start) => DeliveryDrains(s, row, recorded, start, r);
      case _ =>
        hide Handled;
        if a.OnExecutorCompleted? || a.OnStrategyCompleted? || a.RetriesPostflight? {
          CompletionDrains(s, a, r);
        } else if a.StopRun? || a.PauseRun? || a.ResumeRun? || a.KillRun? || a.RecoverRun? || a.ManualStart? {
          RequestDrains(s, a, r);
        } else {
          EventDrains(s, a, r);
        }
    } else if a.StartUp? {
      StartUpDrains(s, a.pastDeadline, r);
    }
  }

  /** The run drained throughout the first k of the later steps. */
  ghost predicate DrainedFor(actions: seq<Action>, later: seq<Action>, r: RunId, k: nat) {
    k <= |later| && forall j | 0 <= j < k :: StillDraining(After(actions + later[..j]), r)
  }

  /** Over every run: draining lasts until the end, or until the moment the run is first found terminal. */
  lemma {:induction false} DrainEndsTerminal(actions: seq<Action>, later: seq<Action>, r: RunId) returns (k: nat)
    requires StillDraining(After(actions), r)
    ensures DrainedFor(actions, later, r, k)
    ensures Ended(After(actions + later[..k]), r) || (k == |later| && StillDraining(After(actions + later), r))
    decreases |later|
  {
    hide After, StillDraining, Ended;
    if later == [] {
      k := 0;
      assert actions + later == actions;
    } else {
      var before, a := later[..|later| - 1], later[|later| - 1];
      k := DrainEndsTerminal(actions, before, r);
      assert forall j | 0 <= j <= |before| :: before[..j] == later[..j];
      if k == |before| && StillDraining(After(actions + before), r) {
        Snoc(actions + before, a);
        assert actions + later == actions + before + [a];
        assert later[..|later|] == later && before[..k] == before;
        StepDrains(After(actions + before), a, r);
        k := |later|;
      }
    }
  }
}
