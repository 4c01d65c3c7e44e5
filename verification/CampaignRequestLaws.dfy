/** What starts, wakes, ceilings, requests and restarts do to every field of the state. */
module CampaignRequestLaws {
  import opened CampaignLaws
  import opened CampaignState
  import opened Wrappers

  predicate AtWork(status: LoopState) {
    status in {SOL_PENDING, SOL_REVIEWING, EXECUTOR_PENDING, EXECUTING}
  }

  /** The run with another status and drain reason. */
  function Moved(run: Run, status: LoopState, drain: DrainReason): Run {
    Run(status, run.iteration, run.maxIterations, run.activeDispatch, drain)
  }

  // ---------- Starts and wakes ----------

  /** The row's run waits for exactly this start, and no strategy has been recorded for it. */
  predicate Awaited(s: State, row: StartRow, strategyRecorded: bool) {
    && row in s.startRows && row.runId < |s.runs| && !strategyRecorded
    && s.runs[row.runId].status == EXECUTOR_PENDING && s.runs[row.runId].activeDispatch == Some(row.dispatch)
  }

  /**
   * A delivered start row enters the coordinator's start if and only if its run waits for it. The run then executes, or is
   * unavailable if the start was refused; a crash leaves only the entry behind. The executor is launched on nothing but a
   * single-agent dispatch.
   */
  lemma DeliveryLaw(s: State, row: StartRow, strategyRecorded: bool, start: StartOutcome, t: State)
    requires s.running && t == Step(s, DeliversStart(row, strategyRecorded, start))
    ensures !Awaited(s, row, strategyRecorded) ==> t == s
    ensures Awaited(s, row, strategyRecorded) && start.Interrupted? ==>
              t == s.(entries := s.entries + [row.dispatch], running := false, stopPending := false, ceilingPending := false)
    ensures Awaited(s, row, strategyRecorded) && !start.Interrupted? ==>
      var run := s.runs[row.runId];
      && t == s.(runs := t.runs, entries := s.entries + [row.dispatch], executed := t.executed)
      && RunBecame(s, t, row.runId, Moved(run, if start.Refused? then EXECUTOR_UNAVAILABLE else EXECUTING, run.drain))
      && t.executed == if start.Launched? && row.dispatch in s.dispatches && s.dispatches[row.dispatch].strategy == SINGLE_AGENT
                       then s.executed + {row.dispatch} else s.executed
  {
  }

  /** The wake still matters to the run it was sent for. */
  predicate WakeMatters(s: State, r: RunId, threw: bool) {
    && r < |s.runs| && s.runs[r].status != STOPPED && s.runs[r].status != CEILING_REACHED
    && !s.stopPending && !s.ceilingPending && s.runs[r].drain == NOT_DRAINING
    && (threw || s.runs[r].status != DRAINING)
  }

  /**
   * The end of a wake: a run that was stopped, closed or put into a drain meanwhile is left alone. Otherwise Sol reviews
   * it, or it needs attention, or it stalls; a busy Sol leaves a run that is no longer waiting for it as it is.
   */
  lemma WakeLaw(s: State, r: RunId, outcome: WakeOutcome, threw: bool, attention: bool, t: State)
    requires s.running && t == Step(s, FinishesWake(r, outcome, threw, attention))
    ensures !WakeMatters(s, r, threw) ==> t == s
    ensures WakeMatters(s, r, threw) ==>
      var run, needsAttention, reviewed, left := s.runs[r], threw && attention,
        (outcome.Submitted? && !threw) || (outcome.BusyRetry? && s.runs[r].status == SOL_PENDING),
        outcome.BusyRetry? && s.runs[r].status != SOL_PENDING;
      OnlyRunBecame(s, t, r, if needsAttention then Moved(run, ATTENTION_REQUIRED, run.drain)
                             else if reviewed then Moved(run, SOL_REVIEWING, run.drain)
                             else if left then run
                             else Moved(run, SOL_STALLED, run.drain))
  {
  }

  // ---------- Ceilings and requests ----------

  /**
   * The deadline: a run at work, or one whose strategy is paused, is put into a drain, unless it drains already, and the
   * ceiling is pending; any other active run ends at once.
   */
  lemma CeilingLaw(s: State, paused: bool, t: State)
    requires t == CeilingFired(s, paused)
    ensures match ActiveRun(s.runs)
      case None => t == s
      case Some(r) =>
        var run, waits := s.runs[r], AtWork(s.runs[r].status) || paused;
        && t == s.(runs := t.runs, ceilingPending := waits)
        && RunBecame(s, t, r, if !waits then Moved(run, CEILING_REACHED, NOT_DRAINING)
                              else if run.status == DRAINING then run
                              else Moved(run, DRAINING, WALL_CLOCK_CEILING))
  {
    hide ActiveRun;
  }

  lemma CeilingStepLaw(s: State, paused: bool)
    requires s.running
    ensures Step(s, CeilingTimer(paused)) == CeilingFired(s, paused)
  {
  }

  /**
   * A stop: a run at work or draining drains for the user from now on, with the stop pending; one whose strategy is at work
   * does so unless it drains already; any other active run is stopped at once.
   */
  lemma StopLaw(s: State, strategyActive: bool, t: State)
    requires s.running && t == Step(s, StopRun(strategyActive))
    ensures match ActiveRun(s.runs)
      case None => t == s
      case Some(r) =>
        var run := s.runs[r];
        && t == s.(runs := t.runs, stopPending := t.stopPending)
        && if strategyActive then
             t.stopPending == s.stopPending && RunBecame(s, t, r, if run.status == DRAINING then run else Moved(run, DRAINING, USER_STOP))
           else if AtWork(run.status) || run.status == DRAINING then t.stopPending && RunBecame(s, t, r, Moved(run, DRAINING, USER_STOP))
           else t.stopPending == s.stopPending && RunBecame(s, t, r, Moved(run, STOPPED, NOT_DRAINING))
  {
    hide ActiveRun;
  }

  /** A kill sends its run to recovery and leaves its drain reason and the pending marks as they are. */
  lemma KillLaw(s: State, r: RunId, t: State)
    requires s.running && t == Step(s, KillRun(r))
    ensures if r >= |s.runs| then t == s else OnlyRunBecame(s, t, r, Moved(s.runs[r], RECOVERY_REQUIRED, s.runs[r].drain))
  {
  }

  /** A pause is granted if and only if nothing waits for a boundary and Sol is not reviewing on its own. */
  predicate MayPause(s: State, run: Run, strategyActive: bool) {
    && run.status != PAUSED && run.status != DRAINING && !s.stopPending && !s.ceilingPending && run.drain == NOT_DRAINING
    && (strategyActive || (run.status != SOL_PENDING && run.status != SOL_REVIEWING))
  }

  lemma PauseLaw(s: State, strategyActive: bool, t: State)
    requires s.running && t == Step(s, PauseRun(strategyActive))
    ensures match ActiveRun(s.runs)
      case None => t == s
      case Some(r) => if MayPause(s, s.runs[r], strategyActive) then OnlyRunBecame(s, t, r, Moved(s.runs[r], PAUSED, NOT_DRAINING)) else t == s
  {
    hide ActiveRun;
  }

  /**
   * Only a paused run is resumed. A strategy carries on by itself; without one the executor is launched on the active
   * dispatch, if there is one, and the run is unavailable if that fails.
   */
  lemma ResumeLaw(s: State, strategyActive: bool, launched: bool, t: State)
    requires s.running && t == Step(s, ResumeRun(strategyActive, launched))
    ensures match ActiveRun(s.runs)
      case None => t == s
      case Some(r) =>
        var run := s.runs[r];
        if run.status != PAUSED || (!strategyActive && run.activeDispatch.None?) then t == s
        else
          && t == s.(runs := t.runs, executed := t.executed)
          && RunBecame(s, t, r, Moved(run, if strategyActive || launched then EXECUTING else EXECUTOR_UNAVAILABLE, run.drain))
          && t.executed == if !strategyActive && launched then s.executed + {run.activeDispatch.value} else s.executed
  {
    hide ActiveRun;
  }

  /** Operator recovery: the latest run, if it needs one, is stopped, completed, or handed to Sol again. */
  lemma RecoverLaw(s: State, how: Recovery, evidence: bool, t: State)
    requires s.running && t == Step(s, RecoverRun(how, evidence))
    ensures if s.runs == [] || !(s.runs[|s.runs| - 1].status in {RECOVERY_REQUIRED, BLOCKED, NEEDS_HUMAN, ATTENTION_REQUIRED})
               || (how.RecoverRetry? && evidence) then t == s
            else
              var r, run := |s.runs| - 1, s.runs[|s.runs| - 1];
              OnlyRunBecame(s, t, r, Moved(run, match how case RecoverStop => STOPPED case RecoverComplete => GOAL_COMPLETE case RecoverRetry => SOL_PENDING, run.drain))
  {
  }

  /** A manual strategy start takes a run with a dispatch that no actor works on and no stop or ceiling holds. */
  lemma ManualStartLaw(s: State, r: RunId, strategyActive: bool, t: State)
    requires s.running && t == Step(s, ManualStart(r, strategyActive))
    ensures if r < |s.runs| && !strategyActive && s.runs[r].activeDispatch.Some?
               && !(s.runs[r].status in {EXECUTOR_PENDING, EXECUTING, DRAINING, STOPPED, CEILING_REACHED}) then
              OnlyRunBecame(s, t, r, Moved(s.runs[r], EXECUTING, s.runs[r].drain))
            else t == s
  {
  }

  /** A campaign starts if and only if no run of the repository is open, and its first run waits for Sol. */
  lemma RunStartLaw(s: State, max: nat, t: State)
    requires s.running && t == Step(s, RunStarts(max))
    ensures if exists k :: 0 <= k < |s.runs| && !IsTerminal(s.runs[k].status) then t == s
            else t == s.(runs := s.runs + [Run(SOL_PENDING, 0, max, None, NOT_DRAINING)], started := s.started + [[]])
  {
  }

  /** What the executor, the browser and the watcher report about a run. */
  lemma EventLaw(s: State, r: RunId)
    requires s.running && r < |s.runs|
    ensures OnlyRunBecame(s, Step(s, LaunchFails(r)), r, Moved(s.runs[r], EXECUTOR_UNAVAILABLE, s.runs[r].drain))
    ensures OnlyRunBecame(s, Step(s, NeedsAttention(r)), r, Moved(s.runs[r], ATTENTION_REQUIRED, s.runs[r].drain))
    ensures ActiveRun(s.runs) == Some(r) ==>
              if s.runs[r].status in {SOL_PENDING, SOL_REVIEWING} then OnlyRunBecame(s, Step(s, SolTimesOut), r, Moved(s.runs[r], SOL_STALLED, s.runs[r].drain))
              else Step(s, SolTimesOut) == s
  {
    hide ActiveRun;
  }

  // ---------- Restarts ----------

  /** A restart before the deadline: an executor's turn goes to recovery, and a drain gets back the mark of its reason. */
  lemma RestartLaw(s: State, t: State)
    requires !s.running && t == Step(s, StartUp(false))
    ensures match ActiveRun(s.runs)
      case None => t == s.(running := true)
      case Some(r) =>
        var run := s.runs[r];
        && t == s.(running := true, runs := t.runs, stopPending := t.stopPending, ceilingPending := t.ceilingPending)
        && RunBecame(s, t, r, if run.status in {EXECUTOR_PENDING, EXECUTING} then Moved(run, RECOVERY_REQUIRED, run.drain) else run)
        && (t.stopPending <==> s.stopPending || (run.status == DRAINING && run.drain == USER_STOP))
        && (t.ceilingPending <==> s.ceilingPending || (run.status == DRAINING && run.drain in {WALL_CLOCK_CEILING, ITERATION_CEILING}))
  {
    hide ActiveRun;
  }

  /** The newest open run stays so while it is open and no other run changes. */
  lemma ActiveStays(a: seq<Run>, b: seq<Run>, r: RunId)
    requires ActiveRun(a) == Some(r) && |a| == |b| && (forall q | 0 <= q < |a| && q != r :: a[q] == b[q]) && !IsTerminal(b[r].status)
    ensures ActiveRun(b) == Some(r)
  {
    assert !IsTerminal(b[r].status);
  }

  /** The marks a restart finds in the row of a draining run. */
  lemma MirrorLaw(s: State, r: RunId)
    requires ActiveRun(s.runs) == Some(r)
    ensures var m, run := Mirrored(s), s.runs[r];
            && m == s.(stopPending := m.stopPending, ceilingPending := m.ceilingPending)
            && (m.stopPending <==> s.stopPending || (run.status == DRAINING && run.drain == USER_STOP))
  {
    hide ActiveRun;
  }

  /** The deadline handler, run once on a draining run and twice on any other, closes the active run. */
  lemma RehydrationCloses(s: State, r: RunId, t: State)
    requires ActiveRun(s.runs) == Some(r) && s.runs[r].status != IDLE && t == Rehydrated(s, true)
    ensures |t.runs| == |s.runs| && t.runs[r] == Moved(s.runs[r], CEILING_REACHED, NOT_DRAINING)
    ensures (forall q | 0 <= q < |s.runs| && q != r :: IsTerminal(s.runs[q].status)) ==>
              && t == s.(runs := t.runs, stopPending := t.stopPending, ceilingPending := false)
              && RunBecame(s, t, r, Moved(s.runs[r], CEILING_REACHED, NOT_DRAINING))
              && (t.stopPending <==> s.stopPending || (s.runs[r].status == DRAINING && s.runs[r].drain == USER_STOP))
  {
    RehydrationFires(s, r);
    MirrorLaw(s, r);
    hide ActiveRun, Mirrored, CeilingFired, Rehydrated;
    var m := Mirrored(s);
    var once := CeilingFired(m, false);
    CeilingLaw(m, false, once);
    CeilingLaw(once, false, CeilingFired(once, false));
    if AtWork(s.runs[r].status) {
      ActiveStays(s.runs, once.runs, r);
    } else {
      ClosedIsNotActive(once, r);
    }
  }

  lemma RehydrationFires(s: State, r: RunId)
    requires ActiveRun(s.runs) == Some(r) && s.runs[r].status != IDLE
    ensures var once := CeilingFired(Mirrored(s), false);
            Rehydrated(s, true) == if s.runs[r].status == DRAINING then once else CeilingFired(once, false)
  {
    hide ActiveRun, Mirrored, CeilingFired;
  }

  lemma ClosedIsNotActive(s: State, r: RunId)
    requires r < |s.runs| && IsTerminal(s.runs[r].status)
    ensures ActiveRun(s.runs) != Some(r)
    ensures (forall q | 0 <= q < |s.runs| && q != r :: IsTerminal(s.runs[q].status)) ==> ActiveRun(s.runs) == None
  {
  }

  /** A restart past the deadline closes the run that was active, whatever it was doing, unless it never left IDLE. */
  lemma LateRestartLaw(s: State, r: RunId, t: State)
    requires !s.running && t == Step(s, StartUp(true)) && ActiveRun(s.runs) == Some(r)
    ensures |t.runs| == |s.runs|
    ensures s.runs[r].status != IDLE ==> t.runs[r] == Moved(s.runs[r], CEILING_REACHED, NOT_DRAINING)
    ensures s.runs[r].status == IDLE ==> t == s.(running := true)
    ensures s.runs[r].status != IDLE && (forall q | 0 <= q < |s.runs| && q != r :: IsTerminal(s.runs[q].status)) ==>
              && t == s.(running := true, runs := t.runs, stopPending := t.stopPending, ceilingPending := false)
              && RunBecame(s, t, r, Moved(s.runs[r], CEILING_REACHED, NOT_DRAINING))
              && (t.stopPending <==> s.stopPending || (s.runs[r].status == DRAINING && s.runs[r].drain == USER_STOP))
  {
    var up := s.(running := true);
    assert t == Reconciled(Rehydrated(up, true));
    if s.runs[r].status != IDLE {
      RehydrationCloses(up, r, Rehydrated(up, true));
      ClosedIsNotActive(Rehydrated(up, true), r);
      hide ActiveRun, Rehydrated, Step, StartedUp, Handled;
    } else {
      IdleStays(up, r);
      hide ActiveRun, Rehydrated, Reconciled, Step, StartedUp, Handled;
    }
  }

  lemma IdleStays(s: State, r: RunId)
    requires ActiveRun(s.runs) == Some(r) && s.runs[r].status == IDLE
    ensures Reconciled(Rehydrated(s, true)) == s
  {
    hide ActiveRun;
  }
}
