/** However often a start row is redelivered, the coordinator's start is entered at most once per dispatch. */
module CampaignStarts {
  import opened CampaignIterations
  import opened CampaignState
  import opened CampaignSteps
  import opened Wrappers

  /** A redelivered start row of this dispatch would get through. */
  predicate Waiting(s: State, d: DispatchId) {
    && d in s.dispatches && s.dispatches[d].runId < |s.runs|
    && s.runs[s.dispatches[d].runId].status.EXECUTOR_PENDING? && s.runs[s.dispatches[d].runId].activeDispatch == Some(d)
  }

  /** A dispatch that was entered only waits again while the process is down, and then its run is the active one. */
  predicate EnteredOnce(s: State, d: DispatchId) {
    && multiset(s.entries)[d] <= 1
    && (d in s.entries && Waiting(s, d) ==> !s.running && ActiveRun(s.runs) == Some(s.dispatches[d].runId))
  }

  /** If the process dies inside coordinator.start, it does so for the active run. */
  predicate InterruptsActiveRun(s: State, a: Action) {
    s.running && a.DeliversStart? && a.start.Interrupted? && Startable(s, a.row, a.strategyRecorded) ==> ActiveRun(s.runs) == Some(a.row.runId)
  }

  lemma WaitingBefore(s: State, t: State, d: DispatchId)
    requires Keeps(s, t) && Waiting(t, d)
    ensures Waiting(s, d)
  {
    assert SameDispatch(s.dispatches[d], t.dispatches[d]);
    assert SameRow(s.runs[s.dispatches[d].runId], t.runs[s.dispatches[d].runId]);
  }

  lemma QuietStep(s: State, t: State, d: DispatchId)
    requires s.running && EnteredOnce(s, d) && Keeps(s, t)
    ensures EnteredOnce(t, d)
  {
    hide KeepsRuns, KeepsDispatches, KeepsIntents, Waiting;
    if Waiting(t, d) {
      WaitingBefore(s, t, d);
    }
  }

  lemma AcceptStep(s: State, a: Action, d: DispatchId)
    requires s.running && Counted(s) && EnteredOnce(s, d) && Accepts(s, a)
    ensures EnteredOnce(Handled(s, a), d)
  {
  }

  lemma ArrivalStep(s: State, a: Action, d: DispatchId)
    requires s.running && Counted(s) && EnteredOnce(s, d) && (a.RunStarts? || a.DispatchArrives?)
    ensures EnteredOnce(Handled(s, a), d)
  {
    var t := Handled(s, a);
    if d in t.dispatches && t.dispatches[d].runId < |s.runs| && s.runs[t.dispatches[d].runId].activeDispatch == Some(d) {
      ActiveDispatch(s, t.dispatches[d].runId);
    }
  }

  lemma LoseStep(s: State, a: Action, d: DispatchId)
    requires s.running && EnteredOnce(s, d) && Loses(s, a)
    ensures EnteredOnce(Handled(s, a), d)
  {
  }

  lemma DeliveryStep(s: State, row: StartRow, recorded: bool, start: StartOutcome, d: DispatchId)
    requires s.running && Counted(s) && EnteredOnce(s, d) && EnteredOnce(s, row.dispatch)
    requires InterruptsActiveRun(s, DeliversStart(row, recorded, start))
    ensures EnteredOnce(StartDelivered(s, row, recorded, start), d)
  {
    if Startable(s, row, recorded) {
      RowDispatch(s, row);
      assert Waiting(s, row.dispatch);
      hide Counted;
      var t := StartDelivered(s, row, recorded, start);
      assert t.entries == s.entries + [row.dispatch];
    }
  }

  lemma RestartStep(s: State, late: bool, d: DispatchId)
    requires !s.running && EnteredOnce(s, d)
    ensures EnteredOnce(StartedUp(s, late), d)
  {
    hide StartedUp, KeepsRuns, KeepsDispatches, KeepsIntents;
    var up, t := s.(running := true), StartedUp(s, late);
    StartUpKeeps(s, late);
    if d in t.entries && Waiting(t, d) {
      WaitingBefore(up, t, d);
      SameRunId(up, t, d);
      StartUpEndsExecutor(s, late);
    }
  }

  lemma SameRunId(s: State, t: State, d: DispatchId)
    requires Keeps(s, t) && d in s.dispatches
    ensures d in t.dispatches && t.dispatches[d].runId == s.dispatches[d].runId
  {
    assert SameDispatch(s.dispatches[d], t.dispatches[d]);
  }

  lemma StepEntersOnce(s: State, a: Action, d: DispatchId)
    requires Counted(s) && InterruptsActiveRun(s, a)
    requires forall e :: EnteredOnce(s, e)
    ensures EnteredOnce(Step(s, a), d)
  {
    hide Counted, Handled, StartedUp, Accepts, EnteredOnce, InterruptsActiveRun;
    if s.running {
      match a
      case DeliversStart(row, recorded, start) =>
        HandledDelivery(s, row, recorded, start);
        DeliveryStep(s, row, recorded, start, d);
      case _ =>
        if a.RunStarts? || a.DispatchArrives? {
          ArrivalStep(s, a, d);
        } else if Accepts(s, a) {
          AcceptStep(s, a, d);
        } else if Loses(s, a) {
          LoseStep(s, a, d);
        } else {
          HandledKeeps(s, a);
          QuietStep(s, Handled(s, a), d);
        }
    } else if a.StartUp? {
      RestartStep(s, a.pastDeadline, d);
    }
  }

  /**
   * Duplicate and overlapping replays, crashes and restarts included, every dispatch enters the coordinator's start at
   * most once, as long as no crash falls inside the start of a run that is not the active one.
   */
  lemma {:induction false} StartEnteredAtMostOnce(actions: seq<Action>, d: DispatchId)
    requires Always(InterruptsActiveRun, actions)
    ensures multiset(After(actions).entries)[d] <= 1
    ensures EnteredOnce(After(actions), d)
  {
    if actions != [] {
      var before := actions[..|actions| - 1];
      forall e
        ensures EnteredOnce(After(before), e)
      {
        StartEnteredAtMostOnce(before, e);
      }
      EveryRunIsCounted(before);
      StepEntersOnce(After(before), actions[|actions| - 1], d);
    }
  }

  // ---------- The condition is needed ----------

  /** The newest run below r that is not terminal. */
  function ActiveBelow(runs: seq<Run>, r: Option<RunId>): Option<RunId>
    requires r.Some? ==> r.value <= |runs|
  {
    if r.None? then None else ActiveRun(runs[..r.value])
  }

  /**
   * Whether a restart deals with run r, which waits for its executor. It looks at the active run. Past the deadline it
   * closes that run and looks at the one below, and if the active run was paused and the one below had no actor at work
   * either, it closes both and looks at the third.
   */
  predicate Reached(runs: seq<Run>, r: RunId, late: bool) {
    var first := ActiveRun(runs);
    var second := ActiveBelow(runs, first);
    || first == Some(r)
    || (&& late && first.Some? && !runs[first.value].status.IDLE?
        && (|| second == Some(r)
            || (&& runs[first.value].status.PAUSED? && second.Some?
                && !ExecutorActive(runs[second.value].status) && !SolActive(runs[second.value].status)
                && ActiveBelow(runs, second) == Some(r))))
  }

  /** A crash inside the start of run r and a restart, before the deadline or past it: the row starts again iff the restart does not reach r. */
  lemma InterruptedStartReopensIff(s: State, row: StartRow, late: bool)
    requires s.running && Startable(s, row, false)
    ensures var t := Step(Step(s, DeliversStart(row, false, Interrupted)), StartUp(late));
            t.running && (Startable(t, row, false) <==> !Reached(s.runs, row.runId, late))
  {
    var down := EnterStart(s, row.runId, row.dispatch, Interrupted);
    hide ActiveRun, StartedUp, Reached;
    RestartKeepsRow(down, row, late);
    RestartReachesIff(down, row.runId, late);
  }

  /** A restart keeps start rows, and every run's dispatch. */
  lemma RestartKeepsRow(s: State, row: StartRow, late: bool)
    requires row.runId < |s.runs|
    ensures var t := StartedUp(s, late);
            t.running && t.startRows == s.startRows && |t.runs| == |s.runs| && t.runs[row.runId].activeDispatch == s.runs[row.runId].activeDispatch
  {
    hide StartedUp, KeepsDispatches, KeepsIntents;
    StartUpKeeps(s, late);
    RestartIsUp(s, late);
    assert SameRow(s.runs[row.runId], StartedUp(s, late).runs[row.runId]);
  }

  lemma RestartIsUp(s: State, late: bool)
    ensures StartedUp(s, late).running
  {
    hide ActiveRun, CeilingFired;
    var up := s.(running := true);
    CeilingStaysUp(Mirrored(up));
    CeilingStaysUp(CeilingFired(Mirrored(up), false));
  }

  lemma CeilingStaysUp(s: State)
    ensures CeilingFired(s, false).running == s.running
  {
    hide ActiveRun;
  }

  /** Closing the active run makes the one below it active. */
  lemma ClosingActivatesBelow(runs: seq<Run>, r: RunId, closed: Run)
    requires ActiveRun(runs) == Some(r) && IsTerminal(closed.status)
    ensures ActiveRun(runs[r := closed]) == ActiveBelow(runs, Some(r))
  {
    TerminalTail(runs[r := closed], r);
    assert runs[r := closed][..r] == runs[..r];
  }

  lemma {:induction false} TerminalTail(runs: seq<Run>, n: nat)
    requires n <= |runs| && forall k | n <= k < |runs| :: IsTerminal(runs[k].status)
    ensures ActiveRun(runs) == ActiveRun(runs[..n])
    decreases |runs|
  {
    if n < |runs| {
      TerminalTail(runs[..|runs| - 1], n);
      assert runs[..|runs| - 1][..n] == runs[..n];
    } else {
      assert runs[..n] == runs;
    }
  }

  /** The ceiling at a restart: the active run drains if it is at work, and is closed otherwise. */
  function Ceiled(runs: seq<Run>): seq<Run> {
    var active := ActiveRun(runs);
    if active.None? then runs
    else
      var run := runs[active.value];
      runs[active.value := if ExecutorActive(run.status) || SolActive(run.status) then run.(status := DRAINING, drain := WALL_CLOCK_CEILING)
                           else run.(status := CEILING_REACHED, drain := NOT_DRAINING)]
  }

  lemma CeilingCeils(s: State)
    ensures CeilingFired(s, false).runs == Ceiled(s.runs)
  {
    hide ActiveRun;
  }

  lemma DrainingStaysActive(runs: seq<Run>, r: RunId, draining: Run)
    requires ActiveRun(runs) == Some(r) && !IsTerminal(draining.status)
    ensures ActiveRun(runs[r := draining]) == Some(r)
  {
    TerminalTail(runs[r := draining], r + 1);
    assert runs[r := draining][..r + 1][r] == draining;
  }

  /** The runs after a restart. */
  function RestartedRuns(runs: seq<Run>, late: bool): seq<Run> {
    var first := ActiveRun(runs);
    var ceiled := if first.None? || !late || runs[first.value].status.IDLE? then runs
                  else if runs[first.value].status.DRAINING? then Ceiled(runs) else Ceiled(Ceiled(runs));
    var active := ActiveRun(ceiled);
    if active.Some? && ExecutorActive(ceiled[active.value].status) then ceiled[active.value := ceiled[active.value].(status := RECOVERY_REQUIRED)] else ceiled
  }

  lemma RestartRuns(s: State, late: bool)
    ensures StartedUp(s, late).runs == RestartedRuns(s.runs, late)
  {
    hide ActiveRun, CeilingFired, Ceiled, KeepsRuns, KeepsDispatches, KeepsIntents, Mirrored;
    var up := s.(running := true);
    MirrorKeeps(up);
    CeilingCeils(Mirrored(up));
    CeilingCeils(CeilingFired(Mirrored(up), false));
  }

  lemma RestartReachesIff(s: State, r: RunId, late: bool)
    requires r < |s.runs| && s.runs[r].status.EXECUTOR_PENDING?
    ensures |StartedUp(s, late).runs| == |s.runs|
    ensures StartedUp(s, late).runs[r].status.EXECUTOR_PENDING? <==> !Reached(s.runs, r, late)
  {
    RestartRuns(s, late);
    hide StartedUp;
    var first := ActiveRun(s.runs).value;
    if late && !s.runs[first].status.IDLE? {
      LateRestartReachesIff(s.runs, r);
    } else {
      hide ActiveRun, ActiveBelow, Ceiled;
    }
  }

  /** Past the deadline, after the first two looks of the ceiling. */
  lemma LateRestartReachesIff(runs: seq<Run>, r: RunId)
    requires r < |runs| && runs[r].status.EXECUTOR_PENDING?
    requires ActiveRun(runs).Some? && !runs[ActiveRun(runs).value].status.IDLE?
    ensures |RestartedRuns(runs, true)| == |runs|
    ensures RestartedRuns(runs, true)[r].status.EXECUTOR_PENDING? <==> !Reached(runs, r, true)
  {
    var first := ActiveRun(runs).value;
    var run := runs[first];
    var once := Ceiled(runs);
    hide ActiveRun;
    if run.status.DRAINING? || run.status.PAUSED? {
      ClosingActivatesBelow(runs, first, once[first]);
      BelowIsBelow(runs, first);
      if run.status.PAUSED? && ActiveRun(once).Some? {
        SecondLook(runs, once, r, first, ActiveRun(once).value);
      }
    } else {
      DrainingStaysActive(runs, first, once[first]);
      var twice := Ceiled(once);
      ClosingActivatesBelow(once, first, twice[first]);
      assert once[..first] == runs[..first];
      BelowIsBelow(runs, first);
    }
  }

  lemma BelowIsBelow(runs: seq<Run>, r: RunId)
    requires r <= |runs|
    ensures ActiveBelow(runs, Some(r)).Some? ==> ActiveBelow(runs, Some(r)).value < r
  {
  }

  /** A paused run was closed, and the ceiling looks at the run below it. */
  lemma SecondLook(runs: seq<Run>, once: seq<Run>, r: RunId, first: RunId, second: RunId)
    requires r < |runs| && ActiveRun(runs) == Some(first) && once == Ceiled(runs) && runs[first].status.PAUSED?
    requires ActiveRun(once) == Some(second) && second < first && ActiveBelow(runs, Some(first)) == Some(second)
    requires runs[r].status.EXECUTOR_PENDING?
    ensures RestartedRuns(runs, true)[r].status.EXECUTOR_PENDING? <==> !Reached(runs, r, true)
  {
    hide ActiveRun;
    var twice := Ceiled(once);
    if ExecutorActive(once[second].status) || SolActive(once[second].status) {
      DrainingStaysActive(once, second, twice[second]);
    } else {
      ClosingActivatesBelow(once, second, twice[second]);
      assert once[..second] == runs[..second];
      BelowIsBelow(runs, second);
    }
  }

  /** Two runs of one repository, both revived by late wakes: the newer one hides the older from the restart. */
  function HiddenRun(older: LoopState, newer: LoopState, iteration: nat): seq<Run> {
    [Run(older, iteration, 5, if iteration == 0 then None else Some("d"), NOT_DRAINING), Run(newer, 0, 5, None, NOT_DRAINING)]
  }

  lemma ActiveOfTwo(runs: seq<Run>)
    requires |runs| == 2
    ensures ActiveRun(runs) == if !IsTerminal(runs[1].status) then Some(1) else if !IsTerminal(runs[0].status) then Some(0) else None
  {
    assert runs[..1][..0] == [];
  }

  /** The state with these two runs and nothing else yet. */
  function Idle(older: LoopState, newer: LoopState): State {
    INITIAL.(runs := HiddenRun(older, newer, 0), started := [[], []])
  }

  lemma NothingYet()
    ensures Always(Enabled, []) && After([]) == INITIAL
  {
  }

  lemma FirstRunStalls() returns (actions: seq<Action>)
    ensures Always(Enabled, actions)
    ensures After(actions) == INITIAL.(runs := [Run(SOL_STALLED, 0, 5, None, NOT_DRAINING)], started := [[]])
  {
    var pending := INITIAL.(runs := [Run(SOL_PENDING, 0, 5, None, NOT_DRAINING)], started := [[]]);
    NothingYet();
    hide After, Always;
    actions := Extend([], RunStarts(5), pending);
    assert pending.runs[..0] == [];
    actions := Extend(actions, SolTimesOut, INITIAL.(runs := [Run(SOL_STALLED, 0, 5, None, NOT_DRAINING)], started := [[]]));
  }

  lemma TwoRuns() returns (actions: seq<Action>)
    ensures Always(Enabled, actions) && After(actions) == Idle(SOL_REVIEWING, SOL_STALLED)
  {
    actions := FirstRunStalls();
    hide After, Always;
    assert After(actions).runs[..0] == [];
    actions := Extend(actions, RunStarts(5), Idle(SOL_STALLED, SOL_PENDING));
    ActiveOfTwo(Idle(SOL_STALLED, SOL_PENDING).runs);
    actions := Extend(actions, SolTimesOut, Idle(SOL_STALLED, SOL_STALLED));
    actions := Extend(actions, FinishesWake(0, Submitted, false, false), Idle(SOL_REVIEWING, SOL_STALLED));
  }

  function Arrived(): State {
    Idle(SOL_REVIEWING, SOL_STALLED).(dispatches := map["d" := Dispatch(0, 1, SINGLE_AGENT, false)])
  }

  function Accepted(): State {
    StartDispatch(Arrived(), 0, "d").(intents := Arrived().intents + {DispatchKey("d", DISPATCH_START)})
  }

  lemma ArrivedIsAccepted()
    ensures DispatchDetected(Arrived(), "d", true, false) == Accepted()
    ensures Accepted().runs == HiddenRun(EXECUTOR_PENDING, SOL_STALLED, 1)
  {
    ActiveOfTwo(Arrived().runs);
  }

  lemma HiddenPendingRun() returns (actions: seq<Action>)
    ensures Always(Enabled, actions) && After(actions).running
    ensures After(actions).runs == HiddenRun(EXECUTOR_PENDING, SOL_REVIEWING, 1)
    ensures After(actions).entries == [] && StartRow(0, "d") in After(actions).startRows
  {
    actions := TwoRuns();
    hide After, Always, DispatchDetected;
    ArrivedIsAccepted();
    actions := Extend(actions, DispatchArrives("d", Dispatch(0, 1, SINGLE_AGENT, false)), Arrived());
    actions := Extend(actions, OnDispatchDetected("d", true, false), Accepted());
    actions := Extend(actions, FinishesWake(1, Submitted, false, false), Accepted().(runs := HiddenRun(EXECUTOR_PENDING, SOL_REVIEWING, 1)));
  }

  /** Such a run exists: the start of one dispatch is entered twice. */
  lemma StartCanBeEnteredTwice() returns (actions: seq<Action>)
    ensures Always(Enabled, actions) && multiset(After(actions).entries)["d"] == 2
  {
    actions := HiddenPendingRun();
    hide After, Always;
    var s, row := After(actions), StartRow(0, "d");
    ActiveOfTwo(s.runs);
    InterruptedStartReopensIff(s, row, false);
    var interrupted := EnterStart(s, 0, "d", Interrupted);
    RestartKeepsEntries(interrupted, false);
    hide StartedUp;
    actions := Extend(actions, DeliversStart(row, false, Interrupted), interrupted);
    var restarted := Step(interrupted, StartUp(false));
    actions := Extend(actions, StartUp(false), restarted);
    actions := Extend(actions, DeliversStart(row, false, Launched), EnterStart(restarted, 0, "d", Launched));
    assert After(actions).entries == ["d", "d"];
  }

  lemma RestartKeepsEntries(s: State, late: bool)
    requires !s.running
    ensures Step(s, StartUp(late)).entries == s.entries
  {
    StartUpKeeps(s, late);
  }
}
