/** The durable transition processor: intents, their bodies, and the outbox that is replayed after commit. */
module Transitions {
  datatype SourceKind = DISPATCH | SOL_CONTROL | EXECUTOR_COMPLETION | STRATEGY_COMPLETION

  /** The logical identity of a transition; the intent table is unique in it. */
  datatype SourceKey = SourceKey(kind: SourceKind, sourceId: string, operation: string)

  datatype IntentState = INTENT_PENDING | INTENT_APPLYING | INTENT_APPLIED

  datatype EffectState = PENDING | DELIVERING | DELIVERED | FAILED_RETRYABLE | FAILED_TERMINAL

  type EffectKey = string

  /** Rows are never deleted, so the position of a row in the table serves as its id, and rows are in creation order. */
  datatype Row = Row(effect: EffectKey, state: EffectState, attempts: nat)

  /** Where a caller of enqueueAndApply stands: its intent is inserted, or already marked APPLYING. */
  datatype Caller = Inserted(key: SourceKey) | Marked(key: SourceKey)

  /** A listed row and the state it had when it was listed. */
  datatype Item = Item(row: nat, listed: EffectState)

  /** The rows a replay still has to visit, and the one it is delivering. */
  datatype Replay = Replay(items: seq<Item>, current: seq<nat>)

  datatype Handover = Handover(replay: nat, row: nat, listed: EffectState)

  /**
   * `intents` and `outbox` are tables; callers and replays are lost in a crash. `committed` lists the bodies that
   * committed, `effects` what each of them enqueued, and `handed` every row a replay handed to the deliverer.
   */
  datatype State = State(intents: map<SourceKey, IntentState>, outbox: seq<Row>,
                         callers: map<nat, Caller>, nextCaller: nat, replays: map<nat, Replay>, nextReplay: nat,
                         committed: seq<SourceKey>, effects: map<SourceKey, seq<EffectKey>>, handed: seq<Handover>)

  const INITIAL := State(map[], [], map[], 0, map[], 0, [], map[], [])

  const LIST_LIMIT := 100

  // ---------- Tables ----------

  predicate HasRow(rows: seq<Row>, effect: EffectKey) {
    exists i | 0 <= i < |rows| :: rows[i].effect == effect
  }

  /** INSERT OR IGNORE, one effect after the other. */
  function WithRows(rows: seq<Row>, effects: seq<EffectKey>): seq<Row>
    decreases |effects|
  {
    if effects == [] then rows
    else
      var before := WithRows(rows, effects[..|effects| - 1]);
      var effect := effects[|effects| - 1];
      if HasRow(before, effect) then before else before + [Row(effect, PENDING, 0)]
  }

  /** The oldest rows in a state among the first n, at most LIST_LIMIT of them. */
  function Listed(rows: seq<Row>, state: EffectState, n: nat): seq<Item>
    requires n <= |rows|
  {
    if n == 0 then []
    else
      var before := Listed(rows, state, n - 1);
      if rows[n - 1].state == state && |before| < LIST_LIMIT then before + [Item(n - 1, state)] else before
  }

  function ReplayItems(rows: seq<Row>): seq<Item> {
    Listed(rows, PENDING, |rows|) + Listed(rows, DELIVERING, |rows|)
  }

  predicate IsSettled(state: EffectState) {
    state.DELIVERED? || state.FAILED_RETRYABLE? || state.FAILED_TERMINAL?
  }

  /** A claim moves PENDING to DELIVERING; any other row is left alone. */
  function ClaimedRow(row: Row): Row {
    if row.state.PENDING? then row.(state := DELIVERING, attempts := row.attempts + 1) else row
  }

  function SettledRow(row: Row, ok: bool): Row {
    row.(state := if ok then DELIVERED else FAILED_RETRYABLE)
  }

  // ---------- Steps ----------

  /** Each is one committed statement or transaction; any of them may be interleaved with any other. */
  datatype Action =
    | Enqueue(key: SourceKey)
    | MarkApplying(caller: nat)
    | Commit(caller: nat, effects: seq<EffectKey>)
    | Rollback(caller: nat)
    | StartReplay
    | Visit(replay: nat)
    | Settle(replay: nat, ok: bool)
    | Crash

  function Enqueued(s: State, key: SourceKey): State {
    if key in s.intents then s
    else s.(intents := s.intents[key := INTENT_PENDING], callers := s.callers[s.nextCaller := Inserted(key)], nextCaller := s.nextCaller + 1)
  }

  function MarkedApplying(s: State, caller: nat): State {
    if caller !in s.callers || !s.callers[caller].Inserted? then s
    else
      var key := s.callers[caller].key;
      if key in s.intents && s.intents[key].INTENT_PENDING? then
        s.(intents := s.intents[key := INTENT_APPLYING], callers := s.callers[caller := Marked(key)])
      else s.(callers := s.callers - {caller})
  }

  /** The transaction: the body, its outbox rows and the APPLIED mark, all at once. */
  function Committed(s: State, caller: nat, effects: seq<EffectKey>): State {
    if caller !in s.callers || !s.callers[caller].Marked? then s
    else
      var key := s.callers[caller].key;
      s.(intents := s.intents[key := INTENT_APPLIED], outbox := WithRows(s.outbox, effects), callers := s.callers - {caller},
         committed := s.committed + [key], effects := s.effects[key := effects])
  }

  /** The replay looks at its next row: it claims it, redelivers it if it was listed as DELIVERING, or skips it. */
  function Visited(s: State, replay: nat): State {
    if replay !in s.replays || s.replays[replay].items == [] || s.replays[replay].current != [] then s
    else
      var item, rest := s.replays[replay].items[0], s.replays[replay].items[1..];
      if item.row >= |s.outbox| then s
      else
        var row := s.outbox[item.row];
        if !row.state.PENDING? && !item.listed.DELIVERING? then s.(replays := s.replays[replay := Replay(rest, [])])
        else s.(outbox := s.outbox[item.row := ClaimedRow(row)], replays := s.replays[replay := Replay(rest, [item.row])],
                handed := s.handed + [Handover(replay, item.row, item.listed)])
  }

  /** The delivery ended; its outcome is written whatever the row says by now. */
  function DeliveryEnded(s: State, replay: nat, ok: bool): State {
    if replay !in s.replays || s.replays[replay].current == [] || s.replays[replay].current[0] >= |s.outbox| then s
    else
      var i := s.replays[replay].current[0];
      s.(outbox := s.outbox[i := SettledRow(s.outbox[i], ok)], replays := s.replays[replay := s.replays[replay].(current := [])])
  }

  function Step(s: State, a: Action): State {
    match a
    case Enqueue(key) => Enqueued(s, key)
    case MarkApplying(caller) => MarkedApplying(s, caller)
    case Commit(caller, effects) => Committed(s, caller, effects)
    case Rollback(caller) => s.(callers := s.callers - {caller})
    case StartReplay => s.(replays := s.replays[s.nextReplay := Replay(ReplayItems(s.outbox), [])], nextReplay := s.nextReplay + 1)
    case Visit(replay) => Visited(s, replay)
    case Settle(replay, ok) => DeliveryEnded(s, replay, ok)
    case Crash => s.(callers := map[], replays := map[])
  }

  function After(s: State, actions: seq<Action>): State {
    if actions == [] then s else Step(After(s, actions[..|actions| - 1]), actions[|actions| - 1])
  }

  lemma Snoc(s: State, actions: seq<Action>, a: Action)
    ensures After(s, actions + [a]) == Step(After(s, actions), a)
  {
    assert (actions + [a])[..|actions + [a]| - 1] == actions;
  }

  /** A run split in two. */
  lemma {:induction false} AfterBoth(s: State, first: seq<Action>, second: seq<Action>)
    ensures After(s, first + second) == After(After(s, first), second)
    decreases |second|
  {
    if second == [] {
      assert first + second == first;
    } else {
      var before, a := second[..|second| - 1], second[|second| - 1];
      AfterBoth(s, first, before);
      Snoc(s, first + before, a);
      assert first + second == first + before + [a];
    }
  }

  // ---------- Intents ----------

  /** The state an intent must be in while a caller holds it. */
  predicate HeldIn(caller: Caller, state: IntentState) {
    if caller.Inserted? then state.INTENT_PENDING? else state.INTENT_APPLYING?
  }

  predicate CallerHolds(s: State, caller: nat)
    requires caller in s.callers
  {
    && caller < s.nextCaller && s.callers[caller].key in s.intents
    && HeldIn(s.callers[caller], s.intents[s.callers[caller].key])
  }

  predicate Distinct(s: State, caller: nat, other: nat)
    requires caller in s.callers && other in s.callers
  {
    s.callers[caller].key == s.callers[other].key ==> caller == other
  }

  /** The body of this key committed once, if its intent is APPLIED, and never otherwise. */
  predicate CommittedOnce(s: State, key: SourceKey) {
    multiset(s.committed)[key] == if key in s.intents && s.intents[key].INTENT_APPLIED? then 1 else 0
  }

  predicate RowsPresent(rows: seq<Row>, effects: seq<EffectKey>) {
    forall i | 0 <= i < |effects| :: HasRow(rows, effects[i])
  }

  /** What a committed body enqueued is in the outbox. */
  predicate EffectsPresent(s: State, key: SourceKey) {
    key in s.intents && s.intents[key].INTENT_APPLIED? ==> key in s.effects && RowsPresent(s.outbox, s.effects[key])
  }

  ghost predicate IntentsAgree(s: State) {
    && (forall c | c in s.callers :: CallerHolds(s, c))
    && (forall c, d | c in s.callers && d in s.callers :: Distinct(s, c, d))
    && (forall key :: CommittedOnce(s, key))
    && (forall key :: EffectsPresent(s, key))
  }

  lemma {:induction false} WithRowsKeeps(rows: seq<Row>, effects: seq<EffectKey>)
    ensures |rows| <= |WithRows(rows, effects)| && WithRows(rows, effects)[..|rows|] == rows
    ensures RowsPresent(WithRows(rows, effects), effects)
    ensures forall i | |rows| <= i < |WithRows(rows, effects)| :: WithRows(rows, effects)[i].state.PENDING? && WithRows(rows, effects)[i].attempts == 0
    decreases |effects|
  {
    if effects != [] {
      var before, effect := effects[..|effects| - 1], effects[|effects| - 1];
      WithRowsKeeps(rows, before);
      var kept, all := WithRows(rows, before), WithRows(rows, effects);
      assert all[..|kept|] == kept;
      forall i | 0 <= i < |effects|
        ensures HasRow(all, effects[i])
      {
        if i < |before| {
          assert before[i] == effects[i];
          HasRowKept(kept, all, effects[i]);
        } else if !HasRow(kept, effect) {
          assert all[|kept|].effect == effect;
        }
      }
    }
  }

  predicate UniqueEffects(rows: seq<Row>) {
    forall i, j | 0 <= i < j < |rows| :: rows[i].effect != rows[j].effect
  }

  /** A row is only added for an effect that was asked for and has none yet, so no effect ever has two rows. */
  lemma {:induction false} WithRowsAddsMissing(rows: seq<Row>, effects: seq<EffectKey>)
    ensures |rows| <= |WithRows(rows, effects)|
    ensures forall i | |rows| <= i < |WithRows(rows, effects)| :: WithRows(rows, effects)[i].effect in effects && !HasRow(rows, WithRows(rows, effects)[i].effect)
    ensures UniqueEffects(rows) ==> UniqueEffects(WithRows(rows, effects))
    decreases |effects|
  {
    if effects != [] {
      var before, effect := effects[..|effects| - 1], effects[|effects| - 1];
      WithRowsAddsMissing(rows, before);
      WithRowsKeeps(rows, before);
      var kept, all := WithRows(rows, before), WithRows(rows, effects);
      if !HasRow(kept, effect) {
        assert all == kept + [Row(effect, PENDING, 0)];
        assert forall i | 0 <= i < |rows| :: kept[..|rows|][i] == kept[i];
        forall i | |rows| <= i < |all|
          ensures all[i].effect in effects && !HasRow(rows, all[i].effect)
        {
          if i < |kept| {
            assert all[i].effect in before;
          }
        }
      }
    }
  }

  lemma HasRowKept(rows: seq<Row>, more: seq<Row>, effect: EffectKey)
    requires HasRow(rows, effect) && |rows| <= |more| && forall i | 0 <= i < |rows| :: more[i].effect == rows[i].effect
    ensures HasRow(more, effect)
  {
    var i :| 0 <= i < |rows| && rows[i].effect == effect;
    assert more[i].effect == effect;
  }

  lemma EffectsKept(s: State, t: State, key: SourceKey)
    requires EffectsPresent(s, key) && key in s.intents && s.intents[key].INTENT_APPLIED?
    requires |s.outbox| <= |t.outbox| && forall i | 0 <= i < |s.outbox| :: t.outbox[i].effect == s.outbox[i].effect
    ensures RowsPresent(t.outbox, s.effects[key])
  {
    forall i | 0 <= i < |s.effects[key]|
      ensures HasRow(t.outbox, s.effects[key][i])
    {
      HasRowKept(s.outbox, t.outbox, s.effects[key][i]);
    }
  }

  lemma CommitAgrees(s: State, caller: nat, effects: seq<EffectKey>)
    requires IntentsAgree(s)
    ensures IntentsAgree(Committed(s, caller, effects))
  {
    if caller in s.callers && s.callers[caller].Marked? {
      var t, key := Committed(s, caller, effects), s.callers[caller].key;
      WithRowsKeeps(s.outbox, effects);
      assert CallerHolds(s, caller);
      forall c | c in t.callers
        ensures CallerHolds(t, c)
      {
        assert CallerHolds(s, c) && Distinct(s, c, caller);
      }
      forall c, d | c in t.callers && d in t.callers
        ensures Distinct(t, c, d)
      {
        assert Distinct(s, c, d);
      }
      forall k
        ensures CommittedOnce(t, k) && EffectsPresent(t, k)
      {
        assert CommittedOnce(s, k) && EffectsPresent(s, k);
        if k != key && k in s.intents && s.intents[k].INTENT_APPLIED? {
          assert forall i | 0 <= i < |s.outbox| :: t.outbox[i] == t.outbox[..|s.outbox|][i];
          EffectsKept(s, t, k);
        }
      }
    }
  }

  lemma EnqueueAgrees(s: State, key: SourceKey)
    requires IntentsAgree(s)
    ensures IntentsAgree(Enqueued(s, key))
  {
    var t := Enqueued(s, key);
    forall c | c in t.callers
      ensures CallerHolds(t, c)
    {
      assert c in s.callers ==> CallerHolds(s, c);
    }
    forall c, d | c in t.callers && d in t.callers
      ensures Distinct(t, c, d)
    {
      assert (c in s.callers ==> CallerHolds(s, c)) && (d in s.callers ==> CallerHolds(s, d));
      assert c in s.callers && d in s.callers ==> Distinct(s, c, d);
    }
    forall k
      ensures CommittedOnce(t, k) && EffectsPresent(t, k)
    {
      assert CommittedOnce(s, k) && EffectsPresent(s, k);
    }
  }

  lemma MarkAgrees(s: State, caller: nat)
    requires IntentsAgree(s)
    ensures IntentsAgree(MarkedApplying(s, caller))
  {
    var t := MarkedApplying(s, caller);
    forall c | c in t.callers
      ensures CallerHolds(t, c)
    {
      assert CallerHolds(s, c);
      assert caller in s.callers ==> Distinct(s, c, caller);
    }
    forall c, d | c in t.callers && d in t.callers
      ensures Distinct(t, c, d)
    {
      assert Distinct(s, c, d);
    }
    forall k
      ensures CommittedOnce(t, k) && EffectsPresent(t, k)
    {
      assert CommittedOnce(s, k) && EffectsPresent(s, k);
    }
  }

  /** Replays, failures and crashes leave the intents and their commits alone. */
  lemma OthersAgree(s: State, t: State)
    requires IntentsAgree(s)
    requires t.intents == s.intents && t.committed == s.committed && t.effects == s.effects && t.nextCaller == s.nextCaller
    requires forall c | c in t.callers :: c in s.callers && t.callers[c] == s.callers[c]
    requires |s.outbox| == |t.outbox| && forall i | 0 <= i < |s.outbox| :: t.outbox[i].effect == s.outbox[i].effect
    ensures IntentsAgree(t)
  {
    forall c | c in t.callers
      ensures CallerHolds(t, c)
    {
      assert CallerHolds(s, c);
    }
    forall c, d | c in t.callers && d in t.callers
      ensures Distinct(t, c, d)
    {
      assert Distinct(s, c, d);
    }
    forall k
      ensures CommittedOnce(t, k) && EffectsPresent(t, k)
    {
      assert CommittedOnce(s, k) && EffectsPresent(s, k);
      if k in s.intents && s.intents[k].INTENT_APPLIED? {
        EffectsKept(s, t, k);
      }
    }
  }

  lemma StepAgrees(s: State, a: Action)
    requires IntentsAgree(s)
    ensures IntentsAgree(Step(s, a))
  {
    hide IntentsAgree;
    match a
    case Enqueue(key) => EnqueueAgrees(s, key);
    case MarkApplying(caller) => MarkAgrees(s, caller);
    case Commit(caller, effects) => CommitAgrees(s, caller, effects);
    case _ => OthersAgree(s, Step(s, a));
  }

  lemma {:induction false} EveryRunAgrees(actions: seq<Action>)
    ensures IntentsAgree(After(INITIAL, actions))
  {
    if actions != [] {
      EveryRunAgrees(actions[..|actions| - 1]);
      StepAgrees(After(INITIAL, actions[..|actions| - 1]), actions[|actions| - 1]);
    }
  }

  /**
   * Under any interleaving of duplicate callers and crashes, the body of a transition commits at most once, and its
   * intent is APPLIED if and only if the body and every outbox row it asked for are committed.
   */
  lemma AppliedIffCommitted(actions: seq<Action>, key: SourceKey)
    ensures var s := After(INITIAL, actions);
            && multiset(s.committed)[key] <= 1
            && ((key in s.intents && s.intents[key].INTENT_APPLIED?) <==> (key in s.committed && key in s.effects && RowsPresent(s.outbox, s.effects[key])))
  {
    EveryRunAgrees(actions);
    var s := After(INITIAL, actions);
    assert CommittedOnce(s, key) && EffectsPresent(s, key);
  }

  lemma StepKeepsUnique(s: State, a: Action)
    requires UniqueEffects(s.outbox)
    ensures UniqueEffects(Step(s, a).outbox)
  {
    if a.Commit? {
      WithRowsAddsMissing(s.outbox, a.effects);
    }
  }

  /** Over every run, however many bodies ask for an effect, it has at most one row. */
  lemma {:induction false} EffectsEnqueuedOnce(actions: seq<Action>)
    ensures UniqueEffects(After(INITIAL, actions).outbox)
  {
    if actions != [] {
      EffectsEnqueuedOnce(actions[..|actions| - 1]);
      StepKeepsUnique(After(INITIAL, actions[..|actions| - 1]), actions[|actions| - 1]);
    }
  }

  // ---------- Orphans ----------

  /** The intent is recorded but neither applied nor held by anyone: its caller failed, or died with the process. */
  predicate Orphaned(s: State, key: SourceKey) {
    && key in s.intents && !s.intents[key].INTENT_APPLIED?
    && forall c | c in s.callers :: s.callers[c].key != key
  }

  lemma OrphanStays(s: State, a: Action, key: SourceKey)
    requires Orphaned(s, key)
    ensures Orphaned(Step(s, a), key) && Step(s, a).intents[key] == s.intents[key]
  {
  }

  /** Over every later run an orphaned transition is never applied: enqueueing it again is a no-op. */
  lemma {:induction false} OrphansAreNeverApplied(s: State, later: seq<Action>, key: SourceKey)
    requires Orphaned(s, key)
    ensures Orphaned(After(s, later), key) && After(s, later).intents[key] == s.intents[key]
    ensures Step(After(s, later), Enqueue(key)) == After(s, later)
  {
    if later != [] {
      OrphansAreNeverApplied(s, later[..|later| - 1], key);
      OrphanStays(After(s, later[..|later| - 1]), later[|later| - 1], key);
    }
  }

  /** After a crash, the orphans are exactly the intents that are not applied. */
  lemma CrashOrphansIff(s: State, key: SourceKey)
    ensures Orphaned(Step(s, Crash), key) <==> key in s.intents && !s.intents[key].INTENT_APPLIED?
  {
  }
}
