/** What replays, overlapping or repeated after crashes, do to the rows of the outbox. */
module OutboxReplay {
  import opened Transitions
  import opened Wrappers

  // ---------- Rows ----------

  /** A row is PENDING until its one claim, which its attempts count. */
  predicate RowSound(row: Row) {
    row.attempts <= 1 && (row.state.PENDING? <==> row.attempts == 0)
  }

  /** What a replay holds was listed from the table, and what it delivers was claimed. */
  predicate ReplaySound(s: State, q: nat)
    requires q in s.replays
  {
    && q < s.nextReplay && |s.replays[q].current| <= 1
    && (forall item | item in s.replays[q].items :: ItemSound(s, item))
    && (forall i | i in s.replays[q].current :: i < |s.outbox| && !s.outbox[i].state.PENDING?)
  }

  predicate ItemSound(s: State, item: Item) {
    && item.row < |s.outbox| && (item.listed.PENDING? || item.listed.DELIVERING?)
    && (item.listed.DELIVERING? ==> !s.outbox[item.row].state.PENDING?)
  }

  /** A row that was handed over was claimed. */
  predicate HandoverSound(s: State, h: Handover) {
    h.row < |s.outbox| && h.replay < s.nextReplay && !s.outbox[h.row].state.PENDING?
  }

  /** Among the replays that listed a row as PENDING, only the one that claimed it was handed the row. */
  predicate OneClaimant(handed: seq<Handover>, a: nat, b: nat)
    requires a < |handed| && b < |handed|
  {
    handed[a].row == handed[b].row && handed[a].listed.PENDING? && handed[b].listed.PENDING? ==> a == b
  }

  ghost predicate OutboxSound(s: State) {
    && (forall i | 0 <= i < |s.outbox| :: RowSound(s.outbox[i]))
    && (forall q | q in s.replays :: ReplaySound(s, q))
    && (forall h | h in s.handed :: HandoverSound(s, h))
    && (forall a, b | 0 <= a < |s.handed| && 0 <= b < |s.handed| :: OneClaimant(s.handed, a, b))
  }

  /** Rows are only added or claimed or settled: none is forgotten, unclaimed, or reopened. */
  predicate RowGoesOn(before: Row, after: Row) {
    && after.effect == before.effect && (after.state.PENDING? ==> before.state.PENDING?)
    && (IsSettled(before.state) ==> IsSettled(after.state))
  }

  ghost predicate RowsGoOn(rows: seq<Row>, more: seq<Row>) {
    |rows| <= |more| && forall i | 0 <= i < |rows| :: RowGoesOn(rows[i], more[i])
  }

  lemma {:induction false} ListedSound(rows: seq<Row>, state: EffectState, n: nat)
    requires n <= |rows|
    ensures |Listed(rows, state, n)| <= LIST_LIMIT
    ensures forall item | item in Listed(rows, state, n) :: item.row < n && item.listed == state && rows[item.row].state == state
    ensures forall a, b | 0 <= a < b < |Listed(rows, state, n)| :: Listed(rows, state, n)[a].row < Listed(rows, state, n)[b].row
  {
    if n > 0 {
      ListedSound(rows, state, n - 1);
    }
  }

  lemma ReplaySoundKept(s: State, t: State, q: nat)
    requires q in s.replays && q in t.replays && t.replays[q] == s.replays[q] && ReplaySound(s, q)
    requires RowsGoOn(s.outbox, t.outbox) && s.nextReplay <= t.nextReplay
    ensures ReplaySound(t, q)
  {
    forall item | item in t.replays[q].items
      ensures ItemSound(t, item)
    {
      assert ItemSound(s, item);
      assert RowGoesOn(s.outbox[item.row], t.outbox[item.row]);
    }
    forall i | i in t.replays[q].current
      ensures i < |t.outbox| && !t.outbox[i].state.PENDING?
    {
      assert RowGoesOn(s.outbox[i], t.outbox[i]);
    }
  }

  lemma HandoversKept(s: State, t: State)
    requires OutboxSound(s) && RowsGoOn(s.outbox, t.outbox) && s.nextReplay <= t.nextReplay
    ensures forall h | h in s.handed :: HandoverSound(t, h)
  {
    forall h | h in s.handed
      ensures HandoverSound(t, h)
    {
      assert HandoverSound(s, h);
      assert RowGoesOn(s.outbox[h.row], t.outbox[h.row]);
    }
  }

  lemma CommitSound(s: State, caller: nat, effects: seq<EffectKey>)
    requires OutboxSound(s)
    ensures OutboxSound(Committed(s, caller, effects)) && RowsGoOn(s.outbox, Committed(s, caller, effects).outbox)
  {
    var t := Committed(s, caller, effects);
    if t != s {
      WithRowsKeeps(s.outbox, effects);
      forall i | 0 <= i < |s.outbox|
        ensures t.outbox[i] == s.outbox[i]
      {
        assert t.outbox[i] == t.outbox[..|s.outbox|][i];
      }
      forall i | 0 <= i < |t.outbox|
        ensures RowSound(t.outbox[i])
      {
        assert i < |s.outbox| ==> RowSound(s.outbox[i]);
      }
      forall q | q in t.replays
        ensures ReplaySound(t, q)
      {
        ReplaySoundKept(s, t, q);
      }
      HandoversKept(s, t);
    }
  }

  lemma VisitSound(s: State, replay: nat)
    requires OutboxSound(s)
    ensures OutboxSound(Visited(s, replay)) && RowsGoOn(s.outbox, Visited(s, replay).outbox)
  {
    var t := Visited(s, replay);
    VisitedRows(s, replay);
    HandoversKept(s, t);
    forall q | q in t.replays
      ensures ReplaySound(t, q)
    {
      VisitedReplay(s, replay, q);
    }
    hide RowSound, HandoverSound, OneClaimant, ReplaySound;
    if |t.handed| > |s.handed| {
      HandoverIsNew(s, replay);
    }
  }

  lemma VisitedRows(s: State, replay: nat)
    requires OutboxSound(s)
    ensures RowsGoOn(s.outbox, Visited(s, replay).outbox) && |Visited(s, replay).outbox| == |s.outbox|
    ensures forall i | 0 <= i < |s.outbox| :: RowSound(Visited(s, replay).outbox[i])
  {
    var t := Visited(s, replay);
    forall i | 0 <= i < |s.outbox|
      ensures RowSound(t.outbox[i]) && RowGoesOn(s.outbox[i], t.outbox[i])
    {
      assert RowSound(s.outbox[i]);
    }
  }

  lemma VisitedReplay(s: State, replay: nat, q: nat)
    requires OutboxSound(s) && q in s.replays
    ensures q in Visited(s, replay).replays && ReplaySound(Visited(s, replay), q)
  {
    var t := Visited(s, replay);
    VisitedRows(s, replay);
    assert ReplaySound(s, q);
    hide RowSound, OneClaimant, HandoverSound;
    if q != replay || t == s {
      ReplaySoundKept(s, t, q);
    } else {
      forall item | item in t.replays[q].items
        ensures ItemSound(t, item)
      {
        assert ItemSound(s, item);
      }
    }
  }

  /** A replay is handed a row it listed as PENDING only if it claims it now, so nobody was handed it before. */
  lemma HandoverIsNew(s: State, replay: nat)
    requires OutboxSound(s) && |Visited(s, replay).handed| > |s.handed|
    ensures forall h | h in Visited(s, replay).handed :: HandoverSound(Visited(s, replay), h)
    ensures forall a, b | 0 <= a < |Visited(s, replay).handed| && 0 <= b < |Visited(s, replay).handed| :: OneClaimant(Visited(s, replay).handed, a, b)
  {
    var t, item := Visited(s, replay), s.replays[replay].items[0];
    assert ReplaySound(s, replay) && ItemSound(s, item);
    forall h | h in t.handed
      ensures HandoverSound(t, h)
    {
      if h in s.handed {
        assert HandoverSound(s, h);
      }
    }
    forall a, b | 0 <= a < |t.handed| && 0 <= b < |t.handed|
      ensures OneClaimant(t.handed, a, b)
    {
      assert a < |s.handed| ==> HandoverSound(s, s.handed[a]);
      assert b < |s.handed| ==> HandoverSound(s, s.handed[b]);
      assert a < |s.handed| && b < |s.handed| ==> OneClaimant(s.handed, a, b);
    }
  }

  lemma SettleSound(s: State, replay: nat, ok: bool)
    requires OutboxSound(s)
    ensures OutboxSound(DeliveryEnded(s, replay, ok)) && RowsGoOn(s.outbox, DeliveryEnded(s, replay, ok).outbox)
  {
    var t := DeliveryEnded(s, replay, ok);
    if t != s {
      assert ReplaySound(s, replay) && s.replays[replay].current[0] in s.replays[replay].current;
      forall i | 0 <= i < |s.outbox|
        ensures RowSound(t.outbox[i]) && RowGoesOn(s.outbox[i], t.outbox[i])
      {
        assert RowSound(s.outbox[i]);
      }
      forall q | q in t.replays
        ensures ReplaySound(t, q)
      {
        assert ReplaySound(s, q);
        if q != replay {
          ReplaySoundKept(s, t, q);
        } else {
          forall item | item in t.replays[q].items
            ensures ItemSound(t, item)
          {
            assert ItemSound(s, item);
          }
        }
      }
      HandoversKept(s, t);
    }
  }

  lemma StartSound(s: State)
    requires OutboxSound(s)
    ensures OutboxSound(Step(s, StartReplay))
  {
    var t := Step(s, StartReplay);
    ListedSound(s.outbox, PENDING, |s.outbox|);
    ListedSound(s.outbox, DELIVERING, |s.outbox|);
    forall q | q in t.replays
      ensures ReplaySound(t, q)
    {
      if q != s.nextReplay {
        ReplaySoundKept(s, t, q);
      } else {
        forall item | item in t.replays[q].items
          ensures ItemSound(t, item)
        {
        }
      }
    }
    HandoversKept(s, t);
  }

  lemma OthersSound(s: State, t: State)
    requires OutboxSound(s) && t.outbox == s.outbox && t.handed == s.handed && t.nextReplay == s.nextReplay
    requires t.replays == s.replays || t.replays == map[]
    ensures OutboxSound(t)
  {
    forall q | q in t.replays
      ensures ReplaySound(t, q)
    {
      ReplaySoundKept(s, t, q);
    }
    HandoversKept(s, t);
  }

  lemma StepSound(s: State, a: Action)
    requires OutboxSound(s)
    ensures OutboxSound(Step(s, a)) && RowsGoOn(s.outbox, Step(s, a).outbox)
  {
    hide OutboxSound;
    match a
    case Commit(caller, effects) => CommitSound(s, caller, effects);
    case Visit(replay) => VisitSound(s, replay);
    case Settle(replay, ok) => SettleSound(s, replay, ok);
    case StartReplay => StartSound(s);
    case _ => OthersSound(s, Step(s, a));
  }

  lemma {:induction false} EveryRunIsSound(actions: seq<Action>)
    ensures OutboxSound(After(INITIAL, actions))
  {
    if actions != [] {
      EveryRunIsSound(actions[..|actions| - 1]);
      StepSound(After(INITIAL, actions[..|actions| - 1]), actions[|actions| - 1]);
    }
  }

  /** Over every run, a row is claimed at most once, and of all replays that list it as PENDING only one is handed it. */
  lemma ClaimedOnce(actions: seq<Action>, i: nat, a: nat, b: nat)
    requires i < |After(INITIAL, actions).outbox| && a < |After(INITIAL, actions).handed| && b < |After(INITIAL, actions).handed|
    ensures After(INITIAL, actions).outbox[i].attempts <= 1
    ensures OneClaimant(After(INITIAL, actions).handed, a, b)
  {
    EveryRunIsSound(actions);
    assert RowSound(After(INITIAL, actions).outbox[i]);
  }

  // ---------- Settled rows ----------

  /** Row i is settled, and no replay from number n on knows it or was handed it after the first k handovers. */
  ghost predicate Shut(s: State, i: nat, n: nat, k: nat) {
    && i < |s.outbox| && IsSettled(s.outbox[i].state) && n <= s.nextReplay && k <= |s.handed|
    && (forall q | q in s.replays && n <= q :: i !in s.replays[q].current && forall item | item in s.replays[q].items :: item.row != i)
    && (forall h | k <= h < |s.handed| :: s.handed[h].row == i ==> s.handed[h].replay < n)
  }

  lemma StartShuts(s: State, i: nat, n: nat, k: nat)
    requires Shut(s, i, n, k)
    ensures Shut(Step(s, StartReplay), i, n, k)
  {
    ListedSound(s.outbox, PENDING, |s.outbox|);
    ListedSound(s.outbox, DELIVERING, |s.outbox|);
  }

  lemma StepShuts(s: State, a: Action, i: nat, n: nat, k: nat)
    requires OutboxSound(s) && Shut(s, i, n, k)
    ensures Shut(Step(s, a), i, n, k)
  {
    StepSound(s, a);
    assert RowGoesOn(s.outbox[i], Step(s, a).outbox[i]);
    hide OutboxSound, RowsGoOn;
    if a.StartReplay? {
      StartShuts(s, i, n, k);
    }
  }

  /**
   * Once a row is DELIVERED or has failed, no later crash, replay or overlap reopens it, and no replay started after
   * that is ever handed it. Only a replay that was already under way can still deliver it again.
   */
  lemma {:induction false} SettledRowsAreNotReplayed(actions: seq<Action>, later: seq<Action>, i: nat)
    requires i < |After(INITIAL, actions).outbox| && IsSettled(After(INITIAL, actions).outbox[i].state)
    ensures Shut(After(INITIAL, actions + later), i, After(INITIAL, actions).nextReplay, |After(INITIAL, actions).handed|)
    decreases |later|
  {
    if later == [] {
      assert actions + later == actions;
      EveryRunIsSound(actions);
      var s := After(INITIAL, actions);
      assert forall q | q in s.replays :: ReplaySound(s, q);
    } else {
      var before, a := later[..|later| - 1], later[|later| - 1];
      SettledRowsAreNotReplayed(actions, before, i);
      EveryRunIsSound(actions + before);
      Snoc(INITIAL, actions + before, a);
      assert actions + later == actions + before + [a];
      hide Shut, OutboxSound, Step;
      StepShuts(After(INITIAL, actions + before), a, i, After(INITIAL, actions).nextReplay, |After(INITIAL, actions).handed|);
    }
  }

  // ---------- A replay that nothing interrupts ----------

  /** The replay visits its next row, and delivers it if it gets it. */
  function ReplayTurn(s: State, replay: nat, ok: bool): State {
    Step(Step(s, Visit(replay)), Settle(replay, ok))
  }

  /** The first n turns; the rows in `accepted` are the ones the deliverer manages. */
  function ReplayTurns(s: State, replay: nat, items: seq<Item>, accepted: set<nat>, n: nat): State
    requires n <= |items|
  {
    if n == 0 then s else ReplayTurn(ReplayTurns(s, replay, items, accepted, n - 1), replay, items[n - 1].row in accepted)
  }

  function ReplayedAlone(s: State, accepted: set<nat>): State {
    var items := ReplayItems(s.outbox);
    ReplayTurns(Step(s, StartReplay), s.nextReplay, items, accepted, |items|)
  }

  /** Each listed row stands in the first n items. */
  predicate Among(items: seq<Item>, n: nat, i: nat)
    requires n <= |items|
  {
    exists k | 0 <= k < n :: items[k].row == i
  }

  predicate DistinctRows(items: seq<Item>) {
    forall a, b | 0 <= a < b < |items| :: items[a].row != items[b].row
  }

  /** How the table looks after n turns: the rows visited so far carry their outcome, the others are as they were. */
  ghost predicate TurnsDone(rows: seq<Row>, t: State, replay: nat, items: seq<Item>, accepted: set<nat>, n: nat)
    requires n <= |items|
  {
    && |t.outbox| == |rows| && replay in t.replays && t.replays[replay] == Replay(items[n..], [])
    && forall i | 0 <= i < |rows| ::
         t.outbox[i] == if Among(items, n, i) then SettledRow(ClaimedRow(rows[i]), i in accepted) else rows[i]
  }

  lemma TurnDone(rows: seq<Row>, t: State, replay: nat, items: seq<Item>, accepted: set<nat>, n: nat)
    requires n < |items| && DistinctRows(items) && TurnsDone(rows, t, replay, items, accepted, n)
    requires items[n].row < |rows| && rows[items[n].row].state == items[n].listed && (items[n].listed.PENDING? || items[n].listed.DELIVERING?)
    ensures TurnsDone(rows, ReplayTurn(t, replay, items[n].row in accepted), replay, items, accepted, n + 1)
  {
    var u := ReplayTurn(t, replay, items[n].row in accepted);
    var r := items[n].row;
    assert !Among(items, n, r);
    assert t.outbox[r] == rows[r] && items[n..][0] == items[n] && items[n..][1..] == items[n + 1..];
    assert u.outbox == t.outbox[r := SettledRow(ClaimedRow(rows[r]), r in accepted)];
    forall i | 0 <= i < |rows|
      ensures u.outbox[i] == if Among(items, n + 1, i) then SettledRow(ClaimedRow(rows[i]), i in accepted) else rows[i]
    {
      if i == r {
        assert items[n].row == i;
      } else {
        AmongStays(items, n, i);
      }
    }
  }

  lemma AmongStays(items: seq<Item>, n: nat, i: nat)
    requires n < |items| && items[n].row != i
    ensures Among(items, n + 1, i) <==> Among(items, n, i)
  {
  }

  lemma {:induction false} AllTurnsDone(s: State, accepted: set<nat>, n: nat)
    requires n <= |ReplayItems(s.outbox)|
    ensures TurnsDone(s.outbox, ReplayTurns(Step(s, StartReplay), s.nextReplay, ReplayItems(s.outbox), accepted, n), s.nextReplay, ReplayItems(s.outbox), accepted, n)
  {
    var items := ReplayItems(s.outbox);
    if n == 0 {
      assert items[0..] == items;
    } else {
      AllTurnsDone(s, accepted, n - 1);
      ItemsDistinct(s.outbox);
      assert items[n - 1] in items;
      hide ReplayTurn, TurnsDone, ReplayItems, DistinctRows;
      TurnDone(s.outbox, ReplayTurns(Step(s, StartReplay), s.nextReplay, items, accepted, n - 1), s.nextReplay, items, accepted, n - 1);
    }
  }

  lemma ItemsDistinct(rows: seq<Row>)
    ensures DistinctRows(ReplayItems(rows))
    ensures forall item | item in ReplayItems(rows) :: item.row < |rows| && rows[item.row].state == item.listed && (item.listed.PENDING? || item.listed.DELIVERING?)
  {
    ListedSound(rows, PENDING, |rows|);
    ListedSound(rows, DELIVERING, |rows|);
    var pending, delivering, items := Listed(rows, PENDING, |rows|), Listed(rows, DELIVERING, |rows|), ReplayItems(rows);
    forall a, b | 0 <= a < b < |items|
      ensures items[a].row != items[b].row
    {
      if a < |pending| && |pending| <= b {
        assert items[a] in pending && items[b] in delivering;
      }
    }
  }

  /** An uninterrupted replay settles exactly the listed rows, each by the outcome of its delivery, and touches no other. */
  lemma ReplaySettlesListed(s: State, accepted: set<nat>)
    ensures |ReplayedAlone(s, accepted).outbox| == |s.outbox|
    ensures forall i | 0 <= i < |s.outbox| ::
      ReplayedAlone(s, accepted).outbox[i] ==
        if Among(ReplayItems(s.outbox), |ReplayItems(s.outbox)|, i) then SettledRow(ClaimedRow(s.outbox[i]), i in accepted) else s.outbox[i]
  {
    AllTurnsDone(s, accepted, |ReplayItems(s.outbox)|);
  }

  // ---------- What becomes of each row ----------

  /** The rows in a state among the first n. */
  function InState(rows: seq<Row>, state: EffectState, n: nat): set<nat>
    requires n <= |rows|
  {
    set i | 0 <= i < n && rows[i].state == state
  }

  /** Row i is in the state, and fewer than 100 rows before it are. */
  predicate OldestInState(rows: seq<Row>, state: EffectState, i: nat) {
    i < |rows| && rows[i].state == state && |InState(rows, state, i)| < 100
  }

  /** A row that waits for delivery, or whose delivery was interrupted, and is among the oldest 100 of its state. */
  predicate Due(rows: seq<Row>, i: nat)
    requires i < |rows|
  {
    OldestInState(rows, PENDING, i) || OldestInState(rows, DELIVERING, i)
  }

  /** The row after a replay in which its delivery succeeded or threw. */
  predicate RowReplayed(rows: seq<Row>, i: nat, succeeds: bool, after: Row)
    requires i < |rows|
  {
    if !Due(rows, i) then after == rows[i]
    else
      && (after.state.DELIVERED? <==> succeeds) && (after.state.FAILED_RETRYABLE? <==> !succeeds)
      && after.effect == rows[i].effect
      && after.attempts == if rows[i].state.PENDING? then rows[i].attempts + 1 else rows[i].attempts
  }

  lemma InStateGrows(rows: seq<Row>, state: EffectState, n: nat)
    requires n < |rows|
    ensures InState(rows, state, n + 1) == InState(rows, state, n) + if rows[n].state == state then {n} else {}
  {
  }

  lemma {:induction false} ListedCount(rows: seq<Row>, state: EffectState, n: nat)
    requires n <= |rows|
    ensures |Listed(rows, state, n)| == if |InState(rows, state, n)| < 100 then |InState(rows, state, n)| else 100
  {
    if n > 0 {
      ListedCount(rows, state, n - 1);
      InStateGrows(rows, state, n - 1);
      hide InState;
    }
  }

  /** A listing holds exactly the oldest 100 rows in the asked state. */
  lemma {:induction false} ListedIff(rows: seq<Row>, state: EffectState, n: nat, i: nat)
    requires n <= |rows|
    ensures Item(i, state) in Listed(rows, state, n) <==> i < n && rows[i].state == state && |InState(rows, state, i)| < 100
  {
    if n > 0 {
      ListedIff(rows, state, n - 1, i);
      ListedCount(rows, state, n - 1);
      hide InState;
      var before := Listed(rows, state, n - 1);
      assert Item(i, state) in before + [Item(n - 1, state)] <==> Item(i, state) in before || i == n - 1;
    }
  }

  lemma DueIffItem(rows: seq<Row>, i: nat)
    requires i < |rows|
    ensures Item(i, rows[i].state) in ReplayItems(rows) <==> Due(rows, i)
  {
    var pending, delivering, item := Listed(rows, PENDING, |rows|), Listed(rows, DELIVERING, |rows|), Item(i, rows[i].state);
    ListedIff(rows, PENDING, |rows|, i);
    ListedIff(rows, DELIVERING, |rows|, i);
    ListedSound(rows, PENDING, |rows|);
    ListedSound(rows, DELIVERING, |rows|);
    hide InState, Listed;
    assert item in pending + delivering <==> item in pending || item in delivering;
    assert item in pending ==> rows[i].state.PENDING?;
    assert item in delivering ==> rows[i].state.DELIVERING?;
  }

  lemma DueIffListed(rows: seq<Row>, i: nat)
    requires i < |rows|
    ensures Among(ReplayItems(rows), |ReplayItems(rows)|, i) <==> Due(rows, i)
  {
    DueIffItem(rows, i);
    ItemsDistinct(rows);
    hide Due, ReplayItems, DistinctRows;
    var items := ReplayItems(rows);
    if Among(items, |items|, i) {
      var k :| 0 <= k < |items| && items[k].row == i;
      assert items[k] in items;
      assert items[k] == Item(i, rows[i].state);
    }
    if Item(i, rows[i].state) in items {
      var k :| 0 <= k < |items| && items[k] == Item(i, rows[i].state);
      assert items[k].row == i;
    }
  }

  /**
   * A replay that nothing interrupts settles each row that is due by the outcome of its own delivery, counts an attempt for
   * each that was PENDING, and leaves every other row as it was.
   */
  lemma ReplayOutcome(s: State, accepted: set<nat>)
    ensures |ReplayedAlone(s, accepted).outbox| == |s.outbox|
    ensures forall i | 0 <= i < |s.outbox| :: RowReplayed(s.outbox, i, i in accepted, ReplayedAlone(s, accepted).outbox[i])
  {
    ReplaySettlesListed(s, accepted);
    hide ReplayedAlone, Among, ReplayItems, Due;
    forall i | 0 <= i < |s.outbox|
      ensures RowReplayed(s.outbox, i, i in accepted, ReplayedAlone(s, accepted).outbox[i])
    {
      DueIffListed(s.outbox, i);
    }
  }

  // ---------- Which delivery decides ----------

  /** How the last delivery of row i that ended during the run ended, if any did. */
  ghost function LastDelivery(actions: seq<Action>, i: nat): Option<bool> {
    if actions == [] then None
    else
      var before, a := After(INITIAL, actions[..|actions| - 1]), actions[|actions| - 1];
      if a.Settle? && a.replay in before.replays && before.replays[a.replay].current == [i] then Some(a.ok)
      else LastDelivery(actions[..|actions| - 1], i)
  }

  /** The state of a row tells how its last delivery ended. */
  predicate Tells(row: Row, last: Option<bool>) {
    && (row.state.DELIVERED? <==> last == Some(true)) && (row.state.FAILED_RETRYABLE? <==> last == Some(false))
    && !row.state.FAILED_TERMINAL?
  }

  lemma VisitTells(s: State, replay: nat, i: nat, last: Option<bool>)
    requires i < |s.outbox| && Tells(s.outbox[i], last)
    ensures |Visited(s, replay).outbox| == |s.outbox| && Tells(Visited(s, replay).outbox[i], last)
  {
  }

  lemma CommitTells(s: State, caller: nat, effects: seq<EffectKey>, i: nat, last: Option<bool>)
    requires i < |Committed(s, caller, effects).outbox|
    requires if i < |s.outbox| then Tells(s.outbox[i], last) else last == None
    ensures Tells(Committed(s, caller, effects).outbox[i], last)
  {
    WithRowsKeeps(s.outbox, effects);
    assert i < |s.outbox| ==> WithRows(s.outbox, effects)[..|s.outbox|][i] == s.outbox[i];
  }

  lemma StepTells(s: State, a: Action, i: nat, last: Option<bool>)
    requires OutboxSound(s) && i < |Step(s, a).outbox|
    requires if i < |s.outbox| then Tells(s.outbox[i], last) else last == None
    requires !(a.Settle? && a.replay in s.replays && s.replays[a.replay].current == [i])
    ensures Tells(Step(s, a).outbox[i], last)
  {
    match a
    case Commit(caller, effects) => CommitTells(s, caller, effects, i, last);
    case Visit(replay) =>
      assert i < |s.outbox|;
      VisitTells(s, replay, i, last);
    case Settle(replay, ok) =>
      if replay in s.replays && s.replays[replay].current != [] {
        assert ReplaySound(s, replay);
        assert s.replays[replay].current == [s.replays[replay].current[0]];
      }
    case _ =>
  }

  /** A delivery that ends writes its outcome into its row. */
  lemma SettleTells(s: State, replay: nat, ok: bool, i: nat)
    requires replay in s.replays && s.replays[replay].current == [i] && i < |s.outbox|
    ensures var t := Step(s, Settle(replay, ok)); |t.outbox| == |s.outbox| && Tells(t.outbox[i], Some(ok))
  {
  }

  /**
   * Over every run, crashes and overlapping replays included: a row is DELIVERED if and only if its last delivery that
   * ended succeeded, and FAILED_RETRYABLE if and only if that delivery threw.
   */
  lemma {:induction false} LastDeliveryDecides(actions: seq<Action>, i: nat)
    ensures if i < |After(INITIAL, actions).outbox| then Tells(After(INITIAL, actions).outbox[i], LastDelivery(actions, i))
            else LastDelivery(actions, i) == None
  {
    if actions != [] {
      var before, a := actions[..|actions| - 1], actions[|actions| - 1];
      var s := After(INITIAL, before);
      LastDeliveryDecides(before, i);
      EveryRunIsSound(before);
      StepSound(s, a);
      assert |s.outbox| <= |Step(s, a).outbox|;
      if a.Settle? && a.replay in s.replays && s.replays[a.replay].current == [i] {
        assert ReplaySound(s, a.replay) && i in s.replays[a.replay].current;
        SettleTells(s, a.replay, a.ok, i);
      } else if i < |After(INITIAL, actions).outbox| {
        StepTells(s, a, i, LastDelivery(before, i));
      }
    }
  }

}
