/** Iterations are exactly the started dispatches, and each started dispatch enters the coordinator at most once. */
module CampaignIterations {
  import opened CampaignState
  import opened CampaignSteps
  import opened Wrappers

  // ---------- Iterations ----------

  predicate StartedAt(s: State, r: RunId, i: nat)
    requires r < |s.started| && i < |s.started[r]|
  {
    var d := s.started[r][i];
    && d in s.dispatches && s.dispatches[d].runId == r && s.dispatches[d].iteration == i + 1 && s.dispatches[d].consumed
    && DispatchKey(d, DISPATCH_START) in s.intents
  }

  function LastStarted(ds: seq<DispatchId>): Option<DispatchId> {
    if ds == [] then None else Some(ds[|ds| - 1])
  }

  ghost predicate RunCounts(s: State, r: RunId)
    requires r < |s.runs| && r < |s.started|
  {
    && |s.started[r]| == s.runs[r].iteration && s.runs[r].activeDispatch == LastStarted(s.started[r])
    && forall i | 0 <= i < |s.started[r]| :: StartedAt(s, r, i)
  }

  predicate RowStarted(s: State, row: StartRow) {
    row.runId < |s.started| && row.dispatch in s.started[row.runId]
  }

  ghost predicate Counted(s: State) {
    && |s.started| == |s.runs|
    && (forall r | 0 <= r < |s.runs| :: RunCounts(s, r))
    && (forall row | row in s.startRows :: RowStarted(s, row))
    && (forall d | d in s.entries :: DispatchKey(d, DISPATCH_START) in s.intents)
  }

  /** What the counts need: nothing started is forgotten, and every entry has its intent. */
  ghost predicate Extends(s: State, t: State) {
    && KeepsRuns(s, t) && t.started == s.started && t.startRows == s.startRows && s.intents <= t.intents
    && (forall d | d in s.dispatches :: d in t.dispatches && SameDispatch(s.dispatches[d], t.dispatches[d]))
    && (forall d | d in t.entries :: d in s.entries || DispatchKey(d, DISPATCH_START) in t.intents)
  }

  lemma CountedKept(s: State, t: State)
    requires Counted(s) && Extends(s, t)
    ensures Counted(t)
  {
    forall r | 0 <= r < |t.runs|
      ensures RunCounts(t, r)
    {
      assert RunCounts(s, r) && SameRow(s.runs[r], t.runs[r]);
      forall i | 0 <= i < |t.started[r]|
        ensures StartedAt(t, r, i)
      {
        assert StartedAt(s, r, i);
      }
    }
    forall row | row in t.startRows
      ensures RowStarted(t, row)
    {
      assert RowStarted(s, row);
    }
  }

  lemma KeepsExtends(s: State, t: State)
    requires Keeps(s, t)
    ensures Extends(s, t)
  {
  }

  /** Where the dispatch of a start row stands. */
  lemma RowDispatch(s: State, row: StartRow)
    requires Counted(s) && row in s.startRows
    ensures row.runId < |s.runs| && row.dispatch in s.dispatches && s.dispatches[row.dispatch].runId == row.runId
    ensures DispatchKey(row.dispatch, DISPATCH_START) in s.intents
  {
    assert RowStarted(s, row);
    var i :| 0 <= i < |s.started[row.runId]| && s.started[row.runId][i] == row.dispatch;
    assert RunCounts(s, row.runId);
    assert StartedAt(s, row.runId, i);
  }

  /** Where the active dispatch of a run stands. */
  lemma ActiveDispatch(s: State, r: RunId)
    requires Counted(s) && r < |s.runs| && s.runs[r].activeDispatch.Some?
    ensures s.runs[r].activeDispatch.value in s.dispatches && s.dispatches[s.runs[r].activeDispatch.value].runId == r
  {
    assert RunCounts(s, r);
    assert StartedAt(s, r, |s.started[r]| - 1);
  }

  lemma AcceptCounts(s: State, a: Action)
    requires Counted(s) && Accepts(s, a)
    ensures Counted(Handled(s, a))
  {
    var t, r, d := Handled(s, a), ActiveRun(s.runs).value, a.dispatch;
    assert t.started == s.started[r := s.started[r] + [d]];
    forall q | 0 <= q < |t.runs|
      ensures RunCounts(t, q)
    {
      assert RunCounts(s, q);
      forall i | 0 <= i < |t.started[q]|
        ensures StartedAt(t, q, i)
      {
        if i < |s.started[q]| {
          assert StartedAt(s, q, i);
        }
      }
    }
    forall row | row in t.startRows
      ensures RowStarted(t, row)
    {
      assert row in s.startRows ==> RowStarted(s, row);
    }
  }

  lemma LoseCounts(s: State, a: Action)
    requires Counted(s) && Loses(s, a)
    ensures Counted(Handled(s, a))
  {
    hide Counted;
    CountedKept(s, Handled(s, a));
  }

  lemma DispatchArrivalCounts(s: State, d: DispatchId, marker: Dispatch)
    requires Counted(s)
    ensures Counted(Handled(s, DispatchArrives(d, marker)))
  {
    hide Counted;
    CountedKept(s, Handled(s, DispatchArrives(d, marker)));
  }

  lemma NewRunCounts(s: State, maxIterations: nat)
    requires Counted(s)
    ensures Counted(Handled(s, RunStarts(maxIterations)))
  {
    var t := Handled(s, RunStarts(maxIterations));
    forall r | 0 <= r < |t.runs|
      ensures RunCounts(t, r)
    {
      if r < |s.runs| {
        assert RunCounts(s, r);
        forall i | 0 <= i < |t.started[r]|
          ensures StartedAt(t, r, i)
        {
          assert StartedAt(s, r, i);
        }
      }
    }
    forall row | row in t.startRows
      ensures RowStarted(t, row)
    {
      assert RowStarted(s, row);
    }
  }

  lemma DeliveryCounts(s: State, row: StartRow, recorded: bool, start: StartOutcome)
    requires Counted(s)
    ensures Counted(StartDelivered(s, row, recorded, start))
  {
    if Startable(s, row, recorded) {
      RowDispatch(s, row);
      hide Counted;
      CountedKept(s, EnterStart(s, row.runId, row.dispatch, start));
    }
  }

  lemma StepCounts(s: State, a: Action)
    requires Counted(s)
    ensures Counted(Step(s, a))
  {
    hide Counted, Keeps, Handled, StartedUp, Accepts, Extends;
    if s.running {
      match a
      case RunStarts(max) => NewRunCounts(s, max);
      case DispatchArrives(d, marker) => DispatchArrivalCounts(s, d, marker);
      case DeliversStart(row, recorded, start) =>
        HandledDelivery(s, row, recorded, start);
        DeliveryCounts(s, row, recorded, start);
      case _ =>
        if Accepts(s, a) {
          AcceptCounts(s, a);
        } else if Loses(s, a) {
          LoseCounts(s, a);
        } else {
          HandledKeeps(s, a);
          KeepsExtends(s, Handled(s, a));
          CountedKept(s, Handled(s, a));
        }
    } else if a.StartUp? {
      StartUpKeeps(s, a.pastDeadline);
      KeepsExtends(s.(running := true), StartedUp(s, a.pastDeadline));
      RunningExtends(s);
      CountedKept(s, s.(running := true));
      CountedKept(s.(running := true), StartedUp(s, a.pastDeadline));
    }
  }

  lemma HandledDelivery(s: State, row: StartRow, recorded: bool, start: StartOutcome)
    ensures Handled(s, DeliversStart(row, recorded, start)) == StartDelivered(s, row, recorded, start)
  {
  }

  lemma RunningExtends(s: State)
    ensures Extends(s, s.(running := true))
  {
  }

  lemma {:induction false} EveryRunIsCounted(actions: seq<Action>)
    ensures Counted(After(actions))
  {
    if actions != [] {
      EveryRunIsCounted(actions[..|actions| - 1]);
      StepCounts(After(actions[..|actions| - 1]), actions[|actions| - 1]);
    }
  }

  /** The i-th started dispatch of a run belongs to it and carries iteration i + 1. */
  predicate NthStart(s: State, r: RunId, i: nat)
    requires r < |s.started| && i < |s.started[r]|
  {
    var d := s.started[r][i];
    d in s.dispatches && s.dispatches[d].runId == r && s.dispatches[d].iteration == i + 1
  }

  /** A run's iteration is its number of started dispatches, whose iterations are 1, 2, … without a gap or a repeat. */
  lemma IterationsAreStarts(actions: seq<Action>, r: RunId)
    requires r < |After(actions).runs|
    ensures |After(actions).started| == |After(actions).runs|
    ensures After(actions).runs[r].iteration == |After(actions).started[r]|
    ensures forall i | 0 <= i < |After(actions).started[r]| :: NthStart(After(actions), r, i)
  {
    EveryRunIsCounted(actions);
    var s := After(actions);
    assert RunCounts(s, r);
    forall i | 0 <= i < |s.started[r]|
      ensures NthStart(s, r, i)
    {
      assert StartedAt(s, r, i);
    }
  }

  /** No dispatch is started twice, in one run or in two. */
  lemma DispatchStartsOnce(actions: seq<Action>, r: RunId, i: nat, q: RunId, j: nat)
    requires r < |After(actions).started| && i < |After(actions).started[r]|
    requires q < |After(actions).started| && j < |After(actions).started[q]|
    requires After(actions).started[r][i] == After(actions).started[q][j]
    ensures r == q && i == j
  {
    EveryRunIsCounted(actions);
    var s := After(actions);
    assert RunCounts(s, r) && RunCounts(s, q);
    assert StartedAt(s, r, i) && StartedAt(s, q, j);
  }

  // ---------- What a dispatch does to the run ----------

  /** The run after an accepted dispatch: in its next iteration. */
  function NextIteration(run: Run, d: DispatchId): Run {
    run.(status := EXECUTOR_PENDING, activeDispatch := Some(d), iteration := run.iteration + 1)
  }

  predicate Draining(s: State, r: RunId)
    requires r < |s.runs|
  {
    s.runs[r].status.DRAINING? || DrainPending(s, s.runs[r])
  }

  /** Either nothing but an intent was recorded, or the dispatch was consumed and only its run moved. */
  predicate ConsumedWithMove(s: State, t: State, r: RunId, d: DispatchId, moved: Run)
    requires r < |s.runs| && d in s.dispatches
  {
    || (t.runs == s.runs && t.dispatches == s.dispatches && t.startRows == s.startRows)
    || (&& t.runs == s.runs[r := moved]
        && t.dispatches == s.dispatches[d := s.dispatches[d].(consumed := true)]
        && t.startRows == s.startRows + if Draining(s, r) then {} else {StartRow(r, d)})
  }

  lemma DrainMoves(s: State, r: RunId, d: DispatchId, cut: bool)
    requires r < |s.runs| && d in s.dispatches && Draining(s, r)
    ensures ConsumedWithMove(s, Transact(s, DispatchKey(d, DISPATCH_DRAIN), SettleDrain(Consume(s, d), r), cut), r, d, DrainedRun(s, s.runs[r]))
  {
  }

  lemma StartMoves(s: State, r: RunId, d: DispatchId, cut: bool)
    requires r < |s.runs| && Correlated(s, r, d) && !Draining(s, r)
    ensures ConsumedWithMove(s, Transact(s, DispatchKey(d, DISPATCH_START), StartDispatch(s, r, d), cut), r, d, NextIteration(s.runs[r], d))
  {
  }

  /**
   * A dispatch is consumed exactly when its run moves in the same commit, into its next iteration or out of its drain;
   * one that does not belong to the active run's next iteration changes nothing at all.
   */
  lemma DispatchConsumedIffRunMoved(s: State, d: DispatchId, free: bool, cut: bool, t: State)
    requires d in s.dispatches && !s.dispatches[d].consumed
    requires t == DispatchDetected(s, d, free, cut)
    ensures d in t.dispatches && (t.dispatches[d].consumed <==> t.runs != s.runs)
    ensures ActiveRun(s.runs).None? || !Correlated(s, ActiveRun(s.runs).value, d) ==> t == s
    ensures t != s ==>
      var r := ActiveRun(s.runs).value;
      ConsumedWithMove(s, t, r, d, if Draining(s, r) then DrainedRun(s, s.runs[r]) else NextIteration(s.runs[r], d))
  {
    hide Transact, SettleDrain, StartDispatch;
    var active := ActiveRun(s.runs);
    if active.Some? && Correlated(s, active.value, d) {
      if Draining(s, active.value) {
        DrainMoves(s, active.value, d, cut);
      } else {
        StartMoves(s, active.value, d, cut);
      }
    }
  }

  ghost predicate MarkerStays(s: State, t: State, d: DispatchId) {
    d in s.dispatches ==> d in t.dispatches && SameDispatch(s.dispatches[d], t.dispatches[d])
  }

  lemma KeepsMarker(s: State, t: State, d: DispatchId)
    requires Keeps(s, t)
    ensures MarkerStays(s, t, d)
  {
  }

  lemma AcceptKeepsMarker(s: State, a: Action, d: DispatchId)
    requires Accepts(s, a) || Loses(s, a)
    ensures MarkerStays(s, Handled(s, a), d)
  {
    hide ActiveRun;
  }

  lemma ArrivalKeepsMarker(s: State, a: Action, d: DispatchId)
    requires a.RunStarts? || a.DispatchArrives? || a.DeliversStart?
    ensures MarkerStays(s, Handled(s, a), d)
  {
    hide ActiveRun;
  }

  /** No step changes a dispatch, other than consuming it. */
  lemma StepKeepsMarker(s: State, a: Action, d: DispatchId)
    ensures MarkerStays(s, Step(s, a), d)
  {
    hide Handled, StartedUp, Accepts, Keeps, MarkerStays;
    KeepsItself(s);
    KeepsMarker(s, s, d);
    if s.running {
      if a.RunStarts? || a.DispatchArrives? || a.DeliversStart? {
        ArrivalKeepsMarker(s, a, d);
      } else if Accepts(s, a) || Loses(s, a) {
        AcceptKeepsMarker(s, a, d);
      } else {
        HandledKeeps(s, a);
        KeepsMarker(s, Handled(s, a), d);
      }
    } else if a.StartUp? {
      StartUpKeeps(s, a.pastDeadline);
      KeepsMarker(s.(running := true), StartedUp(s, a.pastDeadline), d);
      RunningKeepsMarker(s, StartedUp(s, a.pastDeadline), d);
    }
  }

  lemma RunningKeepsMarker(s: State, t: State, d: DispatchId)
    requires MarkerStays(s.(running := true), t, d)
    ensures MarkerStays(s, t, d)
  {
  }

  lemma ConsumedIsInert(s: State, d: DispatchId, free: bool, cut: bool)
    requires d in s.dispatches && s.dispatches[d].consumed
    ensures Step(s, OnDispatchDetected(d, free, cut)) == s
  {
  }

  /** Once consumed, a dispatch is inert for the rest of the run: delivering it again changes nothing. */
  lemma {:induction false} ConsumedDispatchIsInert(actions: seq<Action>, later: seq<Action>, d: DispatchId, free: bool, cut: bool)
    requires d in After(actions).dispatches && After(actions).dispatches[d].consumed
    ensures d in After(actions + later).dispatches && After(actions + later).dispatches[d].consumed
    ensures Step(After(actions + later), OnDispatchDetected(d, free, cut)) == After(actions + later)
    decreases |later|
  {
    hide Step;
    if later == [] {
      assert actions + later == actions;
    } else {
      var before, a := later[..|later| - 1], later[|later| - 1];
      ConsumedDispatchIsInert(actions, before, d, free, cut);
      Snoc(actions + before, a);
      assert actions + later == actions + before + [a];
      StepKeepsMarker(After(actions + before), a, d);
    }
    ConsumedIsInert(After(actions + later), d, free, cut);
  }
}
