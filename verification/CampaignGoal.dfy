/** How a campaign reaches its goal, and how often a Sol control counts. */
module CampaignGoal {
  import opened CampaignEndings
  import opened CampaignLedger
  import opened CampaignState
  import opened CampaignSteps
  import opened Wrappers

  predicate Reached(s: State, r: RunId) {
    r < |s.runs| && s.runs[r].status.GOAL_COMPLETE?
  }

  /** The operator completes the latest run, which needs recovery or review. */
  predicate OperatorCompletes(s: State, a: Action, r: RunId)
    requires r < |s.runs|
  {
    && a.RecoverRun? && a.how.RecoverComplete? && r == |s.runs| - 1
    && var status := s.runs[r].status;
    status.RECOVERY_REQUIRED? || status.BLOCKED? || status.NEEDS_HUMAN? || status.ATTENTION_REQUIRED?
  }

  /** The control was made for this repository, this run, its current iteration and, if it says so, its dispatch. */
  predicate Matches(s: State, c: ControlId, r: RunId)
    requires r < |s.runs|
  {
    && c in s.controls && s.controls[c].status.Detected?
    && s.controls[c].ownRepository && s.controls[c].runId == r && s.controls[c].iteration == s.runs[r].iteration
    && (s.controls[c].relatedDispatch.None? || s.controls[c].relatedDispatch == s.runs[r].activeDispatch)
  }

  /** No actor is at work on the run: it is active and at a Sol boundary, or it stalled last and nothing is active. */
  predicate AtBoundary(s: State, r: RunId)
    requires r < |s.runs|
  {
    if ActiveRun(s.runs).Some? then
      && ActiveRun(s.runs).value == r && !ExecutorActive(s.runs[r].status)
      && !s.runs[r].status.DRAINING? && !DrainPending(s, s.runs[r])
    else LatestStalledRun(s.runs) == Some(r)
  }

  /** A fresh GOAL_COMPLETE control for exactly this run commits. */
  predicate ControlCompletes(s: State, a: Action, r: RunId)
    requires r < |s.runs|
  {
    && a.OnControlDetected? && a.decision.GoalComplete? && !a.strategyActive && !a.cut
    && Matches(s, a.control, r) && AtBoundary(s, r) && ControlKey(a.control) !in s.intents
  }

  lemma EndingStays(s: State, t: State, r: RunId)
    requires OnlyEnds(s, t) && Reached(t, r)
    ensures Reached(s, r)
  {
    EndsAt(s, t, r);
  }

  /** No executor or strategy completion, live or retried, reaches the goal. */
  lemma CompletionsStay(s: State, a: Action, r: RunId)
    requires a.OnExecutorCompleted? || a.OnStrategyCompleted? || a.RetriesPostflight?
    ensures Reached(Handled(s, a), r) ==> Reached(s, r)
  {
    hide ExecutorCompleted, StrategyCompleted, PostflightRetried, OnlyEnds, Reached;
    match a {
      case OnExecutorCompleted(d, result, cut) => ExecutorCompletedEnds(s, d, result, cut);
      case OnStrategyCompleted(c, cut) => StrategyCompletedEnds(s, c, cut);
      case RetriesPostflight(c, late, cut) => PostflightRetriedEnds(s, c, late, cut);
    }
    if Reached(Handled(s, a), r) {
      EndingStays(s, Handled(s, a), r);
    }
  }

  lemma TransactStays(s: State, key: Key, body: State, cut: bool, r: RunId)
    requires Reached(body, r) ==> Reached(s, r)
    ensures Reached(Transact(s, key, body, cut), r) ==> Reached(s, r)
  {
  }

  lemma DispatchStays(s: State, d: DispatchId, free: bool, cut: bool, r: RunId)
    ensures Reached(DispatchDetected(s, d, free, cut), r) ==> Reached(s, r)
  {
    hide SettleDrain, Transact, OnlyEnds;
    var active := ActiveRun(s.runs);
    if active.Some? && Correlated(s, active.value, d) {
      var settled := SettleDrain(Consume(s, d), active.value);
      SettleEnds(s, Consume(s, d), active.value);
      if Reached(settled, r) {
        EndingStays(s, settled, r);
      }
      TransactStays(s, DispatchKey(d, DISPATCH_DRAIN), settled, cut, r);
      TransactStays(s, DispatchKey(d, DISPATCH_START), StartDispatch(s, active.value, d), cut, r);
    }
  }

  lemma CeilingStays(s: State, paused: bool, r: RunId)
    ensures Reached(CeilingFired(s, paused), r) ==> Reached(s, r)
  {
  }

  lemma StartUpStays(s: State, late: bool, r: RunId)
    ensures Reached(StartedUp(s, late), r) ==> Reached(s, r)
  {
    hide CeilingFired;
    var up := s.(running := true);
    CeilingStays(Mirrored(up), false, r);
    CeilingStays(CeilingFired(Mirrored(up), false), false, r);
  }

  /** A control that finds its run about to drain settles the drain instead. */
  lemma SettledStays(s: State, c: ControlId, cut: bool, q: RunId, r: RunId)
    requires c in s.controls && q < |s.runs|
    ensures SettleDrain(s, q).controls == s.controls
    ensures Reached(Transact(s, ControlKey(c), Apply(SettleDrain(s, q), c), cut), r) ==> Reached(s, r)
  {
    SettledControls(s, q);
    hide SettleDrain, Transact, OnlyEnds;
    SettleEnds(s, s, q);
    if Reached(SettleDrain(s, q), r) {
      EndingStays(s, SettleDrain(s, q), r);
    }
    TransactStays(s, ControlKey(c), Apply(SettleDrain(s, q), c), cut, r);
  }

  /** A valid control matches its target, which is the active run, or the last one that stalled if there is none. */
  lemma TargetMatches(s: State, c: ControlId, decision: Decision, strategyActive: bool)
    requires c in s.controls && s.controls[c].status.Detected? && ControlValid(s, c, decision, strategyActive)
    ensures ControlTarget(s, c).Some? && ControlTarget(s, c).value < |s.runs| && Matches(s, c, ControlTarget(s, c).value) && !strategyActive
    ensures ControlTarget(s, c) == if ActiveRun(s.runs).Some? then ActiveRun(s.runs) else LatestStalledRun(s.runs)
    ensures ActiveRun(s.runs).None? ==> !decision.DecidePaused?
  {
    hide ActiveRun, LatestStalledRun;
  }

  /** A control that matches a run at its boundary is valid, and for that run. */
  lemma TargetIff(s: State, c: ControlId, decision: Decision, strategyActive: bool, r: RunId)
    requires c in s.controls && r < |s.runs|
    ensures Matches(s, c, r) && AtBoundary(s, r) && !strategyActive && decision.GoalComplete? ==>
              s.controls[c].status.Detected? && ControlValid(s, c, decision, strategyActive) && ControlTarget(s, c) == Some(r)
  {
    hide ActiveRun, LatestStalledRun;
  }

  /** A valid control, whose run stalled. */
  lemma StalledReachesIff(s: State, c: ControlId, decision: Decision, strategyActive: bool, cut: bool, q: RunId, r: RunId)
    requires c in s.controls && s.controls[c].status.Detected? && ControlValid(s, c, decision, strategyActive)
    requires ActiveRun(s.runs).None? && ControlTarget(s, c) == Some(q) && q < |s.runs| && r < |s.runs| && !Reached(s, r)
    ensures Reached(ControlDetected(s, c, decision, strategyActive, cut), r)
       <==> q == r && decision.GoalComplete? && !cut && ControlKey(c) !in s.intents
  {
    hide ActiveRun, LatestStalledRun, SettleDrain, Transact, Apply, ControlValid, ControlTarget;
    DecidedReachesIff(s, c, cut, WithRun(s, q, s.runs[q].(status := DecidedState(decision), drain := NOT_DRAINING)), q, r);
  }

  /** A valid control, whose run is active. */
  lemma ActiveReachesIff(s: State, c: ControlId, decision: Decision, strategyActive: bool, cut: bool, q: RunId, r: RunId)
    requires c in s.controls && s.controls[c].status.Detected? && ControlValid(s, c, decision, strategyActive)
    requires ActiveRun(s.runs).Some? && ControlTarget(s, c) == Some(q) && q < |s.runs| && r < |s.runs| && !Reached(s, r)
    ensures Reached(ControlDetected(s, c, decision, strategyActive, cut), r)
       <==> q == r && decision.GoalComplete? && !cut && ControlKey(c) !in s.intents
            && !ExecutorActive(s.runs[q].status) && !s.runs[q].status.DRAINING? && !DrainPending(s, s.runs[q])
  {
    hide ActiveRun, LatestStalledRun, SettleDrain, Transact, Apply, ControlValid, ControlTarget;
    SettledStays(s, c, cut, q, r);
    DecidedReachesIff(s, c, cut, WithStatus(s, q, DecidedState(decision)), q, r);
  }

  /** Any other control reaches nothing. */
  lemma InvalidReachesNothing(s: State, c: ControlId, decision: Decision, strategyActive: bool, cut: bool, r: RunId)
    requires r < |s.runs| && !Reached(s, r)
    requires c in s.controls && s.controls[c].status.Detected? ==> !ControlValid(s, c, decision, strategyActive)
    ensures !Reached(ControlDetected(s, c, decision, strategyActive, cut), r)
  {
    hide ActiveRun, LatestStalledRun, SettleDrain, Transact, Apply, ControlValid, ControlTarget;
  }

  lemma ControlReachesIff(s: State, c: ControlId, decision: Decision, strategyActive: bool, cut: bool, r: RunId)
    requires r < |s.runs| && !Reached(s, r)
    ensures Reached(ControlDetected(s, c, decision, strategyActive, cut), r)
       <==> ControlCompletes(s, OnControlDetected(c, decision, strategyActive, cut), r)
  {
    hide ActiveRun, LatestStalledRun, ControlDetected, ControlValid, ControlTarget, Reached;
    if c in s.controls {
      TargetIff(s, c, decision, strategyActive, r);
    }
    if c in s.controls && s.controls[c].status.Detected? && ControlValid(s, c, decision, strategyActive) {
      TargetMatches(s, c, decision, strategyActive);
      var q := ControlTarget(s, c).value;
      if ActiveRun(s.runs).None? {
        StalledReachesIff(s, c, decision, strategyActive, cut, q, r);
      } else {
        ActiveReachesIff(s, c, decision, strategyActive, cut, q, r);
      }
    } else {
      InvalidReachesNothing(s, c, decision, strategyActive, cut, r);
    }
  }

  /** A decision that only touches run q reaches r's goal iff q is r, the goal is decided, and the transaction commits. */
  lemma DecidedReachesIff(s: State, c: ControlId, cut: bool, t: State, q: RunId, r: RunId)
    requires c in s.controls && t.controls == s.controls && q < |s.runs| && r < |s.runs| && !Reached(s, r)
    requires |t.runs| == |s.runs| && (q != r ==> t.runs[r] == s.runs[r])
    ensures Reached(Transact(s, ControlKey(c), Apply(t, c), cut), r)
       <==> q == r && t.runs[r].status.GOAL_COMPLETE? && !cut && ControlKey(c) !in s.intents
  {
  }

  lemma RecoveryReachesIff(s: State, how: Recovery, evidence: bool, r: RunId)
    requires r < |s.runs| && !Reached(s, r)
    ensures Reached(Recovered(s, how, evidence), r) <==> OperatorCompletes(s, RecoverRun(how, evidence), r)
  {
  }

  lemma DeliveryStays(s: State, row: StartRow, recorded: bool, start: StartOutcome, r: RunId)
    ensures Reached(StartDelivered(s, row, recorded, start), r) ==> Reached(s, r)
  {
  }

  lemma RequestStays(s: State, a: Action, r: RunId)
    requires a.StopRun? || a.PauseRun? || a.ResumeRun? || a.KillRun? || a.ManualStart?
    ensures Reached(Handled(s, a), r) ==> Reached(s, r)
  {
    hide ActiveRun, StopRequested;
    if a.StopRun? {
      StopStays(s, a.strategyActive, r);
    }
  }

  lemma StopStays(s: State, strategyActive: bool, r: RunId)
    ensures Reached(StopRequested(s, strategyActive), r) ==> Reached(s, r)
  {
    hide ActiveRun;
  }

  /** Arrivals, browser events, crashes. */
  lemma EventStays(s: State, a: Action, r: RunId)
    requires a.DispatchArrives? || a.ControlArrives? || a.RunStarts? || a.Publishes? || a.LaunchFails? || a.FinishesWake? || a.SolTimesOut?
             || a.NeedsAttention? || a.CrashController? || a.StartUp?
    ensures Reached(Handled(s, a), r) ==> Reached(s, r)
  {
  }

  /**
   * A step takes a run to GOAL_COMPLETE if and only if the operator completes it, or an unrejected and unused
   * GOAL_COMPLETE control made for exactly this run commits at its boundary.
   */
  lemma GoalReachedIff(s: State, a: Action, r: RunId)
    requires s.running && r < |s.runs| && !Reached(s, r)
    ensures Reached(Step(s, a), r) <==> OperatorCompletes(s, a, r) || ControlCompletes(s, a, r)
  {
    hide Reached, DispatchDetected, ControlDetected, CeilingFired, Recovered, StartDelivered, ExecutorCompleted, StrategyCompleted, PostflightRetried;
    match a
    case OnDispatchDetected(d, free, cut) => DispatchStays(s, d, free, cut, r);
    case OnControlDetected(c, decision, strategyActive, cut) => ControlReachesIff(s, c, decision, strategyActive, cut, r);
    case CeilingTimer(paused) => CeilingStays(s, paused, r);
    case RecoverRun(how, evidence) => RecoveryReachesIff(s, how, evidence, r);
    case DeliversStart(row, recorded, start) => DeliveryStays(s, row, recorded, start, r);
    case _ =>
      hide Handled;
      if a.OnExecutorCompleted? || a.OnStrategyCompleted? || a.RetriesPostflight? {
        CompletionsStay(s, a, r);
      } else if a.StopRun? || a.PauseRun? || a.ResumeRun? || a.KillRun? || a.ManualStart? {
        RequestStays(s, a, r);
      } else {
        EventStays(s, a, r);
      }
  }

  /** The i-th step of the run completed r, in one of the two ways there are. */
  ghost predicate CompletedAt(actions: seq<Action>, i: nat, r: RunId) {
    && i < |actions| && After(actions[..i]).running && r < |After(actions[..i]).runs|
    && (OperatorCompletes(After(actions[..i]), actions[i], r) || ControlCompletes(After(actions[..i]), actions[i], r))
  }

  /** Over every run: whenever a run has reached GOAL_COMPLETE, one of the two causes lies behind it. */
  lemma {:induction false} GoalHasCause(actions: seq<Action>, r: RunId) returns (i: nat)
    requires Reached(After(actions), r)
    ensures CompletedAt(actions, i, r)
  {
    hide Handled, StartedUp;
    var before, a := actions[..|actions| - 1], actions[|actions| - 1];
    var s := After(before);
    if Reached(s, r) {
      i := GoalHasCause(before, r);
      assert actions[..i] == before[..i];
    } else if s.running {
      i := |before|;
      if r < |s.runs| {
        GoalReachedIff(s, a, r);
      } else {
        NewRunIsPending(s, a, r);
      }
    } else {
      i := |before|;
      StartUpStays(s, if a.StartUp? then a.pastDeadline else false, r);
    }
  }

  lemma NewRunIsPending(s: State, a: Action, r: RunId)
    requires r >= |s.runs|
    ensures !Reached(Handled(s, a), r)
  {
    hide Keeps;
    if !a.RunStarts? && !a.DispatchArrives? && !a.DeliversStart? && !Accepts(s, a) && !Loses(s, a) {
      hide Handled;
      HandledKeeps(s, a);
      KeepsLength(s, Handled(s, a));
    }
  }

  lemma KeepsLength(s: State, t: State)
    requires Keeps(s, t)
    ensures |t.runs| == |s.runs|
  {
  }

  // ---------- Controls ----------

  /** A control that counted has left its intent behind. */
  predicate AppliedOnce(s: State, c: ControlId) {
    multiset(s.applied)[c] <= 1 && (c in s.applied ==> ControlKey(c) in s.intents)
  }

  lemma AppliedKept(s: State, t: State, c: ControlId)
    requires AppliedOnce(s, c) && t.applied == s.applied && s.intents <= t.intents
    ensures AppliedOnce(t, c)
  {
  }

  lemma ControlAppliesOnce(s: State, t: State, e: ControlId, c: ControlId)
    requires AppliedOnce(s, c) && MarksControl(s, t, e)
    ensures AppliedOnce(t, c)
  {
  }

  /** Over every run: each Sol control is applied at most once. */
  lemma {:induction false} ControlsAppliedOnce(actions: seq<Action>, c: ControlId)
    ensures AppliedOnce(After(actions), c)
  {
    hide Handled, StartedUp, AppliedOnce;
    if actions == [] {
      NothingApplied(c);
    } else {
      var before, a := actions[..|actions| - 1], actions[|actions| - 1];
      ControlsAppliedOnce(before, c);
      var s := After(before);
      if s.running && a.OnControlDetected? {
        HandledControl(s, a);
        ControlMarks(s, a.control, a.decision, a.strategyActive, a.cut);
        ControlAppliesOnce(s, Handled(s, a), a.control, c);
      } else if s.running {
        NewIntents(s, a);
        AppliedKept(s, Handled(s, a), c);
      } else if a.StartUp? {
        RestartAddsNothing(s, a.pastDeadline);
        AppliedKept(s, StartedUp(s, a.pastDeadline), c);
      }
    }
  }

  lemma NewIntents(s: State, a: Action)
    requires !a.OnControlDetected?
    ensures Handled(s, a).applied == s.applied && s.intents <= Handled(s, a).intents
  {
    hide DispatchDetected, ExecutorCompleted, StrategyCompleted, PostflightRetried;
    match a
    case OnDispatchDetected(d, free, cut) => DispatchMarks(s, d, free, cut);
    case OnExecutorCompleted(d, result, cut) => ExecutorMarks(s, d, result, cut);
    case OnStrategyCompleted(c, cut) => StrategyMarks(s, c, cut);
    case RetriesPostflight(c, late, cut) => RetryMarks(s, c, late, cut);
    case _ =>
      hide Handled;
      OthersRecordNothing(s, a);
  }

  lemma NothingApplied(c: ControlId)
    ensures AppliedOnce(INITIAL, c)
  {
  }

  lemma HandledControl(s: State, a: Action)
    requires a.OnControlDetected?
    ensures Handled(s, a) == ControlDetected(s, a.control, a.decision, a.strategyActive, a.cut)
  {
  }
}
