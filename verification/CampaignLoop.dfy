/** The loop's handlers as they work: reading rows, then writing them one after the other. */
module CampaignLoop {
  import opened CampaignState
  import opened Wrappers

  /** What a valid control does to its run. */
  function ControlBody(s: State, decision: Decision, r: RunId, stalled: bool): (t: State)
    requires r < |s.runs|
    ensures t.controls == s.controls
  {
    if stalled then WithRun(s, r, s.runs[r].(status := DecidedState(decision), drain := NOT_DRAINING))
    else if DrainPending(s, s.runs[r]) then SettleDrain(s, r)
    else WithStatus(s, r, DecidedState(decision))
  }

  /** Settling a drain does not look at the other tables. */
  lemma SettleIgnores(s: State, t: State, r: RunId)
    requires r < |s.runs| && t == s.(intents := t.intents, controls := t.controls, applied := t.applied, dispatches := t.dispatches)
    ensures SettleDrain(t, r) == SettleDrain(s, r).(intents := t.intents, controls := t.controls, applied := t.applied, dispatches := t.dispatches)
  {
  }

  /** Neither does what a control does to its run. */
  lemma BodyIgnores(s: State, t: State, decision: Decision, r: RunId, stalled: bool)
    requires r < |s.runs| && t == s.(intents := t.intents, controls := t.controls, applied := t.applied)
    ensures var body := ControlBody(s, decision, r, stalled);
            && body.intents == s.intents && body.applied == s.applied
            && ControlBody(t, decision, r, stalled) == body.(intents := t.intents, controls := t.controls, applied := t.applied)
  {
  }

  /**
   * One repository's rows and pending marks. The ghost fields only record history. No handler is cut short here; a
   * crash between two of its statements is the `cut` of the specification.
   */
  class LoopService {
    var runs: seq<Run>
    var dispatches: map<DispatchId, Dispatch>
    var controls: map<ControlId, Control>
    var intents: set<Key>
    var startRows: set<StartRow>
    var stopPending: bool
    var ceilingPending: bool
    ghost var started: seq<seq<DispatchId>>
    ghost var entries: seq<DispatchId>
    ghost var executed: set<DispatchId>
    ghost var applied: seq<ControlId>
    ghost var published: set<DispatchId>

    ghost function Now(): State
      reads this
    {
      State(true, runs, dispatches, controls, intents, startRows, stopPending, ceilingPending, started, entries, executed, applied, published)
    }

    constructor ()
      ensures Now() == INITIAL
    {
      runs, dispatches, controls, intents, startRows := [], map[], map[], {}, {};
      stopPending, ceilingPending := false, false;
      started, entries, executed, applied, published := [], [], {}, [], {};
    }

    // ---------- Rows ----------

    method UpdateStatus(r: RunId, status: LoopState)
      requires r < |runs|
      modifies this`runs
      ensures Now() == WithStatus(old(Now()), r, status)
    {
      runs := runs[r := runs[r].(status := status)];
    }

    /** Ends a run and clears its drain reason. */
    method Close(r: RunId, status: LoopState)
      requires r < |runs|
      modifies this`runs
      ensures Now() == WithRun(old(Now()), r, old(runs)[r].(status := status, drain := NOT_DRAINING))
    {
      runs := runs[r := runs[r].(status := status, drain := NOT_DRAINING)];
    }

    method ConsumeDispatch(d: DispatchId)
      modifies this`dispatches
      ensures Now() == Consume(old(Now()), d)
    {
      if d in dispatches {
        dispatches := dispatches[d := dispatches[d].(consumed := true)];
      }
    }

    /** Whether the key is new; if so its intent is recorded. */
    method EnqueueIntent(key: Key) returns (inserted: bool)
      modifies this`intents
      ensures inserted <==> key !in old(intents)
      ensures Now() == old(Now()).(intents := old(intents) + {key})
    {
      inserted := key !in intents;
      intents := intents + {key};
    }

    method SettleAtBoundary(r: RunId)
      requires r < |runs|
      modifies this`runs, this`stopPending, this`ceilingPending
      ensures Now() == SettleDrain(old(Now()), r)
    {
      var reason := runs[r].drain;
      if ceilingPending || reason.WALL_CLOCK_CEILING? || reason.ITERATION_CEILING? {
        ceilingPending := false;
        Close(r, CEILING_REACHED);
      } else if stopPending || reason.USER_STOP? {
        stopPending := false;
        Close(r, STOPPED);
      } else {
        ceilingPending := false;
        stopPending := false;
        Close(r, CEILING_REACHED);
      }
    }

    // ---------- Dispatches ----------

    method OnDispatchDetected(d: DispatchId, ownershipFree: bool)
      modifies this
      ensures Now() == DispatchDetected(old(Now()), d, ownershipFree, false)
    {
      hide Transact, SettleDrain, StartDispatch;
      var active := ActiveRun(runs);
      if active.None? || d !in dispatches {
        return;
      }
      var r, dispatch := active.value, dispatches[d];
      var run := runs[r];
      if dispatch.runId != r || dispatch.consumed || dispatch.iteration != run.iteration + 1 {
        return;
      }
      if run.status.DRAINING? || stopPending || ceilingPending || !run.drain.NOT_DRAINING? {
        DrainTransaction(r, d, DispatchKey(d, DISPATCH_DRAIN), true);
      } else if SolActive(run.status) && ownershipFree {
        StartTransaction(r, d);
      }
    }

    /** Ends a drain in one transaction, consuming the dispatch if there is a result. */
    method DrainTransaction(r: RunId, d: DispatchId, key: Key, consumes: bool)
      requires r < |runs|
      modifies this
      ensures Now() == Transact(old(Now()), key, SettleDrain(if consumes then Consume(old(Now()), d) else old(Now()), r), false)
    {
      ghost var s := Now();
      var inserted := EnqueueIntent(key);
      if inserted {
        if consumes {
          ConsumeDispatch(d);
        }
        SettleIgnores(if consumes then Consume(s, d) else s, Now(), r);
        SettleAtBoundary(r);
      }
    }

    method StartTransaction(r: RunId, d: DispatchId)
      requires r < |runs| && d in dispatches
      modifies this
      ensures Now() == Transact(old(Now()), DispatchKey(d, DISPATCH_START), StartDispatch(old(Now()), r, d), false)
    {
      var inserted := EnqueueIntent(DispatchKey(d, DISPATCH_START));
      if inserted {
        StartDispatchOn(r, d);
      }
    }

    method StartDispatchOn(r: RunId, d: DispatchId)
      requires r < |runs| && d in dispatches
      modifies this
      ensures Now() == StartDispatch(old(Now()), r, d)
    {
      var nextIteration := dispatches[d].iteration;
      ConsumeDispatch(d);
      runs := runs[r := runs[r].(status := EXECUTOR_PENDING, activeDispatch := Some(d), iteration := nextIteration)];
      startRows := startRows + {StartRow(r, d)};
      if r < |started| {
        started := started[r := started[r] + [d]];
      }
    }

    method DeliverStartExecutionActor(row: StartRow, strategyRecorded: bool, shuttingDown: bool)
      modifies this
      ensures Now() == StartDelivered(old(Now()), row, strategyRecorded, if shuttingDown then Refused else Launched)
    {
      if row !in startRows || row.runId >= |runs| {
        return;
      }
      var run := runs[row.runId];
      if !run.status.EXECUTOR_PENDING? || run.activeDispatch != Some(row.dispatch) || strategyRecorded {
        return;
      }
      entries := entries + [row.dispatch];
      if shuttingDown {
        UpdateStatus(row.runId, EXECUTOR_UNAVAILABLE);
      } else {
        UpdateStatus(row.runId, EXECUTING);
        if row.dispatch in dispatches && dispatches[row.dispatch].strategy.SINGLE_AGENT? {
          executed := executed + {row.dispatch};
        }
      }
    }

    // ---------- Completions ----------

    method ApplyIterationCompletion(r: RunId, d: DispatchId, isCompleted: bool, terminal: LoopState, hasResult: bool)
      requires r < |runs|
      modifies this
      ensures Now() == CompleteIteration(old(Now()), r, d, isCompleted, terminal, hasResult, false)
    {
      if runs[r].status.DRAINING? {
        DrainTransaction(r, d, DispatchKey(d, if hasResult then COMPLETE_DRAIN else FAIL_DRAIN), hasResult);
      } else if isCompleted {
        var inserted := EnqueueIntent(DispatchKey(d, COMPLETE));
        if inserted {
          ConsumeDispatch(d);
        }
      } else {
        FailTransaction(r, d, terminal, hasResult);
      }
    }

    method FailTransaction(r: RunId, d: DispatchId, terminal: LoopState, hasResult: bool)
      requires r < |runs|
      modifies this
      ensures var s := old(Now());
              Now() == Transact(s, DispatchKey(d, FailOperation(terminal)),
                                WithRun(if hasResult then Consume(s, d) else s, r, s.runs[r].(status := terminal, drain := NOT_DRAINING)), false)
    {
      var inserted := EnqueueIntent(DispatchKey(d, FailOperation(terminal)));
      if inserted {
        if hasResult {
          ConsumeDispatch(d);
        }
        Close(r, terminal);
      }
    }

    method OnExecutorCompleted(d: DispatchId, result: Option<ExecutorStatus>)
      modifies this
      ensures Now() == ExecutorCompleted(old(Now()), d, result, false)
    {
      var active := ActiveRun(runs);
      if active.None? {
        return;
      }
      var r := active.value;
      if runs[r].status.DRAINING? {
        ApplyIterationCompletion(r, d, false, RECOVERY_REQUIRED, result.Some?);
      } else if result.None? {
        UpdateStatus(r, RECOVERY_REQUIRED);
      } else {
        var terminal := match result.value
          case EXECUTOR_BLOCKED => BLOCKED
          case EXECUTOR_NEEDS_HUMAN => NEEDS_HUMAN
          case _ => RECOVERY_REQUIRED;
        ApplyIterationCompletion(r, d, result.value.EXECUTOR_COMPLETED?, terminal, true);
      }
    }

    method OnStrategyCompleted(c: Completion, alreadyCompleted: bool)
      requires alreadyCompleted <==> IterationCompleted(intents, c.dispatch)
      modifies this
      ensures Now() == StrategyCompleted(old(Now()), c, false)
    {
      var active := ActiveRun(runs);
      if active.None? || alreadyCompleted {
        return;
      }
      if c.status.STRATEGY_COMPLETED? && !c.confirmed {
        MarkPostflightBlocked(c.runId);
        return;
      }
      var terminal := if c.status.STRATEGY_PARTIAL? || c.status.STRATEGY_BLOCKED? then BLOCKED else RECOVERY_REQUIRED;
      ApplyIterationCompletion(active.value, c.dispatch, c.status.STRATEGY_COMPLETED?, terminal, true);
    }

    method MarkPostflightBlocked(r: RunId)
      modifies this`runs, this`stopPending, this`ceilingPending
      ensures Now() == PostflightBlocked(old(Now()), r)
    {
      if r >= |runs| {
        return;
      }
      if ExecutorActive(runs[r].status) {
        UpdateStatus(r, RECOVERY_REQUIRED);
      } else if runs[r].status.DRAINING? {
        ceilingPending := false;
        stopPending := false;
        Close(r, RECOVERY_REQUIRED);
      }
    }

    method CompletePostflightRetry(c: Completion, alreadyCompleted: bool, pastDeadline: bool)
      requires c.confirmed
      requires alreadyCompleted <==> IterationCompleted(intents, c.dispatch)
      modifies this
      ensures Now() == PostflightRetried(old(Now()), c, pastDeadline, false)
    {
      if c.dispatch !in dispatches || alreadyCompleted || c.runId >= |runs| {
        return;
      }
      var status := runs[c.runId].status;
      if SolActive(status) || ExecutorActive(status) {
        return;
      }
      var inserted := EnqueueIntent(DispatchKey(c.dispatch, POSTFLIGHT_COMPLETE));
      if inserted {
        ConsumeDispatch(c.dispatch);
      }
      if !ClosedToRetry(status) {
        ContinueCompletedIteration(c.runId, pastDeadline);
      }
    }

    /** Both gates pass through DRAINING and settle at once. */
    method ContinueCompletedIteration(r: RunId, pastDeadline: bool)
      requires r < |runs|
      modifies this`runs, this`ceilingPending
      ensures Now() == ContinueCompleted(old(Now()), r, pastDeadline)
    {
      if runs[r].iteration >= runs[r].maxIterations || pastDeadline {
        UpdateStatus(r, DRAINING);
        ceilingPending := true;
        Close(r, CEILING_REACHED);
        ceilingPending := false;
      }
    }

    // ---------- Sol ----------

    method OnControlDetected(c: ControlId, decision: Decision, strategyActive: bool)
      modifies this
      ensures Now() == ControlDetected(old(Now()), c, decision, strategyActive, false)
    {
      if c !in controls || !controls[c].status.Detected? {
        return;
      }
      hide ActiveRun, LatestStalledRun, Transact, Apply, ControlBody, SettleDrain;
      var valid, r, stalled := ValidateSolControl(c, decision, strategyActive);
      if !valid || (decision.GoalComplete? && !stalled && ExecutorActive(runs[r].status)) {
        controls := controls[c := controls[c].(status := Rejected)];
        return;
      }
      if !stalled && runs[r].status.DRAINING? && !stopPending && !ceilingPending && runs[r].drain.NOT_DRAINING? {
        return;
      }
      ControlTransaction(c, decision, r, stalled);
    }

    method ControlTransaction(c: ControlId, decision: Decision, r: RunId, stalled: bool)
      requires r < |runs| && c in controls
      modifies this
      ensures Now() == Transact(old(Now()), ControlKey(c), Apply(ControlBody(old(Now()), decision, r, stalled), c), false)
    {
      hide ControlBody;
      var inserted := EnqueueIntent(ControlKey(c));
      if !inserted {
        return;
      }
      controls := controls[c := controls[c].(status := Consumed)];
      applied := applied + [c];
      BodyIgnores(old(Now()), Now(), decision, r, stalled);
      CarryOut(decision, r, stalled);
    }

    /** The run's part of a control. */
    method CarryOut(decision: Decision, r: RunId, stalled: bool)
      requires r < |runs|
      modifies this`runs, this`stopPending, this`ceilingPending
      ensures Now() == ControlBody(old(Now()), decision, r, stalled)
    {
      hide SettleDrain;
      if stalled {
        Close(r, DecidedState(decision));
      } else if stopPending || ceilingPending || !runs[r].drain.NOT_DRAINING? {
        SettleAtBoundary(r);
      } else {
        UpdateStatus(r, DecidedState(decision));
      }
    }

    /** The run the control is for, and whether that run stalled, if the control is valid for it. */
    method ValidateSolControl(c: ControlId, decision: Decision, strategyActive: bool) returns (valid: bool, r: RunId, stalled: bool)
      requires c in controls
      ensures valid <==> ControlValid(Now(), c, decision, strategyActive)
      ensures valid ==> Some(r) == ControlTarget(Now(), c) && r < |runs| && (stalled <==> ActiveRun(runs).None?)
    {
      valid, r, stalled := false, 0, false;
      var target := ActiveRun(runs);
      var control := controls[c];
      if target.None? {
        target := LatestStalledRun(runs);
        if target != Some(control.runId) {
          return;
        }
        stalled := true;
      }
      r := target.value;
      valid := !strategyActive && control.ownRepository && !(stalled && decision.DecidePaused?)
        && control.runId == r && control.iteration == runs[r].iteration
        && (control.relatedDispatch.None? || control.relatedDispatch == runs[r].activeDispatch);
    }

    /** The end of submitSolWakeForRun: the run is read again after the browser answered. */
    method FinishWake(r: RunId, outcome: WakeOutcome, threw: bool, attention: bool)
      modifies this`runs
      ensures Now() == WakeFinished(old(Now()), r, outcome, threw, attention)
    {
      if r >= |runs| {
        return;
      }
      var current := runs[r];
      if current.status.STOPPED? || current.status.CEILING_REACHED? || stopPending || ceilingPending || !current.drain.NOT_DRAINING? {
        return;
      }
      if !threw && current.status.DRAINING? {
        return;
      }
      if threw && attention {
        UpdateStatus(r, ATTENTION_REQUIRED);
      } else if outcome.Submitted? && !threw {
        UpdateStatus(r, SOL_REVIEWING);
      } else if outcome.BusyRetry? {
        if current.status.SOL_PENDING? {
          UpdateStatus(r, SOL_REVIEWING);
        }
      } else {
        UpdateStatus(r, SOL_STALLED);
      }
    }

    // ---------- Ceilings, stops and restarts ----------

    method HandleWallClockCeiling(strategyPaused: bool)
      modifies this`runs, this`ceilingPending
      ensures Now() == CeilingFired(old(Now()), strategyPaused)
    {
      var active := ActiveRun(runs);
      if active.None? {
        return;
      }
      var r := active.value;
      var atWork := ExecutorActive(runs[r].status) || SolActive(runs[r].status);
      if !runs[r].status.DRAINING? {
        runs := runs[r := runs[r].(status := DRAINING, drain := WALL_CLOCK_CEILING)];
      }
      if atWork || strategyPaused {
        ceilingPending := true;
      } else {
        Close(r, CEILING_REACHED);
        ceilingPending := false;
      }
    }

    method Stop(strategyActive: bool)
      modifies this`runs, this`stopPending
      ensures Now() == StopRequested(old(Now()), strategyActive)
    {
      var active := ActiveRun(runs);
      if active.None? {
        return;
      }
      var r := active.value;
      var status := runs[r].status;
      if strategyActive {
        if !status.DRAINING? {
          runs := runs[r := runs[r].(status := DRAINING, drain := USER_STOP)];
        }
      } else if ExecutorActive(status) || SolActive(status) || status.DRAINING? {
        runs := runs[r := runs[r].(status := DRAINING, drain := USER_STOP)];
        stopPending := true;
      } else {
        Close(r, STOPPED);
      }
    }

    /** The coordinator's pause: refused during a drain, and at a Sol boundary unless a strategy is at work. */
    method Pause(strategyActive: bool)
      modifies this`runs
      ensures Now() == PauseRequested(old(Now()), strategyActive)
    {
      var active := ActiveRun(runs);
      if active.None? || runs[active.value].status.PAUSED? {
        return;
      }
      var run := runs[active.value];
      if run.status.DRAINING? || stopPending || ceilingPending || !run.drain.NOT_DRAINING? {
        return;
      }
      if strategyActive || !SolActive(run.status) {
        UpdateStatus(active.value, PAUSED);
      }
    }

    /** What the coordinator's kill writes after the wait; the drain reason and the pending marks stay as they are. */
    method FinishKill(r: RunId)
      requires r < |runs|
      modifies this`runs
      ensures Now() == Killed(old(Now()), r)
    {
      UpdateStatus(r, RECOVERY_REQUIRED);
    }

    /** Acts on the latest run, whether or not it is active. */
    method RecoverRun(how: Recovery, postflightEvidence: bool)
      modifies this`runs
      ensures Now() == Recovered(old(Now()), how, postflightEvidence)
    {
      if runs == [] {
        return;
      }
      var r := |runs| - 1;
      var status := runs[r].status;
      if !(status.RECOVERY_REQUIRED? || status.BLOCKED? || status.NEEDS_HUMAN? || status.ATTENTION_REQUIRED?) {
        return;
      }
      match how
      case RecoverStop => UpdateStatus(r, STOPPED);
      case RecoverComplete => UpdateStatus(r, GOAL_COMPLETE);
      case RecoverRetry =>
        if !postflightEvidence {
          UpdateStatus(r, SOL_PENDING);
        }
    }

    method ResumeRun(strategyActive: bool, launched: bool)
      modifies this`runs, this`executed
      ensures Now() == Resumed(old(Now()), strategyActive, launched)
    {
      var active := ActiveRun(runs);
      if active.None? || !runs[active.value].status.PAUSED? {
        return;
      }
      var r := active.value;
      var dispatch := runs[r].activeDispatch;
      if strategyActive {
        UpdateStatus(r, EXECUTING);
      } else if dispatch.Some? {
        UpdateStatus(r, EXECUTING);
        if launched {
          executed := executed + {dispatch.value};
        } else {
          UpdateStatus(r, EXECUTOR_UNAVAILABLE);
        }
      }
    }

    /** What StartupReconciler does for the repository after rehydrateWallClockCeilings. */
    method StartUp(pastDeadline: bool)
      modifies this`runs, this`stopPending, this`ceilingPending
      ensures Now() == StartedUp(old(Now()), pastDeadline)
    {
      RehydrateWallClockCeilings(pastDeadline);
      var active := ActiveRun(runs);
      if active.Some? && ExecutorActive(runs[active.value].status) {
        UpdateStatus(active.value, RECOVERY_REQUIRED);
      }
    }

    method RehydrateWallClockCeilings(pastDeadline: bool)
      modifies this`runs, this`stopPending, this`ceilingPending
      ensures Now() == Rehydrated(old(Now()), pastDeadline)
    {
      var active := ActiveRun(runs);
      if active.None? {
        return;
      }
      var snapshot := runs[active.value];
      if snapshot.status.DRAINING? {
        if snapshot.drain.USER_STOP? {
          stopPending := true;
        } else if !snapshot.drain.NOT_DRAINING? {
          ceilingPending := true;
        }
      }
      if !snapshot.status.IDLE? && pastDeadline {
        HandleWallClockCeiling(false);
        if !snapshot.status.DRAINING? {
          HandleWallClockCeiling(false);
        }
      }
    }
  }
}
