/** The transition processor as it works when nothing interrupts it. */
module TransitionService {
  import opened Transitions
  import opened OutboxReplay

  /** A call of enqueueAndApply that runs to its end, whether or not its body throws. */
  function EnqueuedAndApplied(s: State, key: SourceKey, effects: seq<EffectKey>, fails: bool): State {
    if key in s.intents then Step(s, Enqueue(key))
    else
      var marked := Step(Step(s, Enqueue(key)), MarkApplying(s.nextCaller));
      Step(marked, if fails then Rollback(s.nextCaller) else Commit(s.nextCaller, effects))
  }

  class OrchestrationTransitionService {
    var intents: map<SourceKey, IntentState>
    var outbox: seq<Row>
    ghost var callers: map<nat, Caller>
    ghost var nextCaller: nat
    ghost var replays: map<nat, Replay>
    ghost var nextReplay: nat
    ghost var committed: seq<SourceKey>
    ghost var effects: map<SourceKey, seq<EffectKey>>
    ghost var handed: seq<Handover>

    ghost function Now(): State
      reads this
    {
      State(intents, outbox, callers, nextCaller, replays, nextReplay, committed, effects, handed)
    }

    constructor ()
      ensures Now() == INITIAL
    {
      intents, outbox := map[], [];
      callers, nextCaller, replays, nextReplay := map[], 0, map[], 0;
      committed, effects, handed := [], map[], [];
    }

    method EnqueueAndApply(key: SourceKey, specs: seq<EffectKey>, fails: bool) returns (applied: bool)
      requires nextCaller !in callers
      modifies this
      ensures Now() == EnqueuedAndApplied(old(Now()), key, specs, fails)
      ensures applied <==> key !in old(intents) && !fails
    {
      if key in intents {
        return false;
      }
      ghost var caller := nextCaller;
      EnqueueIntent(key);
      MarkIntentApplying(caller, key);
      if fails {
        callers := callers - {caller};
      } else {
        ApplyInTransaction(caller, key, specs);
      }
      return !fails;
    }

    method EnqueueIntent(key: SourceKey)
      requires key !in intents
      modifies this`intents, this`callers, this`nextCaller
      ensures Now() == Step(old(Now()), Enqueue(key))
    {
      intents := intents[key := INTENT_PENDING];
      callers, nextCaller := callers[nextCaller := Inserted(key)], nextCaller + 1;
    }

    method MarkIntentApplying(ghost caller: nat, key: SourceKey)
      requires caller in callers && callers[caller] == Inserted(key) && key in intents && intents[key].INTENT_PENDING?
      modifies this`intents, this`callers
      ensures Now() == Step(old(Now()), MarkApplying(caller))
    {
      intents := intents[key := INTENT_APPLYING];
      callers := callers[caller := Marked(key)];
    }

    method ApplyInTransaction(ghost caller: nat, key: SourceKey, specs: seq<EffectKey>)
      requires caller in callers && callers[caller] == Marked(key)
      modifies this`intents, this`callers, this`outbox, this`committed, this`effects
      ensures Now() == Step(old(Now()), Commit(caller, specs))
    {
      committed, effects := committed + [key], effects[key := specs];
      EnqueueOutbox(specs);
      intents := intents[key := INTENT_APPLIED];
      callers := callers - {caller};
    }

    /** One INSERT OR IGNORE per effect. */
    method EnqueueOutbox(specs: seq<EffectKey>)
      modifies this`outbox
      ensures outbox == WithRows(old(outbox), specs)
    {
      for n := 0 to |specs|
        invariant outbox == WithRows(old(outbox), specs[..n])
      {
        assert specs[..n + 1][..n] == specs[..n];
        if !HasRow(outbox, specs[n]) {
          outbox := outbox + [Row(specs[n], PENDING, 0)];
        }
      }
      assert specs[..|specs|] == specs;
    }

    method ListByState(state: EffectState) returns (items: seq<Item>)
      ensures items == Listed(outbox, state, |outbox|)
      ensures forall i: nat :: Item(i, state) in items <==> OldestInState(outbox, state, i)
    {
      forall i: nat ensures Item(i, state) in Listed(outbox, state, |outbox|) <==> OldestInState(outbox, state, i) {
        ListedIff(outbox, state, |outbox|, i);
      }
      hide OldestInState;
      items := [];
      for n := 0 to |outbox|
        invariant items == Listed(outbox, state, n)
      {
        if outbox[n].state == state && |items| < LIST_LIMIT {
          items := items + [Item(n, state)];
        }
      }
    }

    /** `accepted` are the rows whose delivery does not throw. */
    method ReplayOutbox(accepted: set<nat>)
      modifies this
      ensures Now() == ReplayedAlone(old(Now()), accepted)
      ensures |outbox| == |old(outbox)| && forall i | 0 <= i < |outbox| :: RowReplayed(old(outbox), i, i in accepted, outbox[i])
    {
      ReplayOutcome(Now(), accepted);
      ghost var s, q := Now(), nextReplay;
      var items := ListPending();
      ItemsDistinct(s.outbox);
      hide Step, ReplayItems, DistinctRows, ReplayTurn;
      for n := 0 to |items|
        invariant Now() == ReplayTurns(Step(s, StartReplay), q, items, accepted, n)
      {
        AllTurnsDone(s, accepted, n);
        assert items[n] in items;
        Turn(q, items, n, items[n].row in accepted);
      }
    }

    method ListPending() returns (items: seq<Item>)
      modifies this`replays, this`nextReplay
      ensures items == ReplayItems(old(outbox)) && Now() == Step(old(Now()), StartReplay)
    {
      var pending := ListByState(PENDING);
      var delivering := ListByState(DELIVERING);
      items := pending + delivering;
      replays, nextReplay := replays[nextReplay := Replay(items, [])], nextReplay + 1;
    }

    /** Claim, deliver, and write the outcome. */
    method Turn(ghost q: nat, items: seq<Item>, n: nat, ok: bool)
      requires n < |items| && items[n].row < |outbox|
      requires q in replays && replays[q] == Replay(items[n..], [])
      modifies this
      ensures Now() == ReplayTurn(old(Now()), q, ok)
    {
      var i := items[n].row;
      var claimed := outbox[i].state.PENDING?;
      assert items[n..][0] == items[n] && items[n..][1..] == items[n + 1..];
      if !claimed && !items[n].listed.DELIVERING? {
        replays := replays[q := Replay(items[n + 1..], [])];
        return;
      }
      if claimed {
        outbox := outbox[i := outbox[i].(state := DELIVERING, attempts := outbox[i].attempts + 1)];
      }
      handed := handed + [Handover(q, i, items[n].listed)];
      outbox := outbox[i := outbox[i].(state := if ok then DELIVERED else FAILED_RETRYABLE)];
      replays := replays[q := Replay(items[n + 1..], [])];
    }
  }

  /** A completed call leaves its key applied if it was new and its body did not throw; a known key changes nothing. */
  lemma CallOutcome(s: State, key: SourceKey, effects: seq<EffectKey>, fails: bool)
    requires s.nextCaller !in s.callers
    ensures var t := EnqueuedAndApplied(s, key, effects, fails);
      if key in s.intents then t == s
      else
        && t.callers == s.callers && key in t.intents
        && t.intents[key] == (if fails then INTENT_APPLYING else INTENT_APPLIED)
        && t.committed == (if fails then s.committed else s.committed + [key])
        && t.outbox == (if fails then s.outbox else WithRows(s.outbox, effects))
  {
    var c := s.nextCaller;
    assert s.callers[c := Inserted(key)][c := Marked(key)] - {c} == s.callers;
  }
}
