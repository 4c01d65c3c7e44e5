/** What every sequence of scheduler operations keeps under a fixed, enabled policy. */
module SchedulerProperties {
  import opened FiniteSets
  import opened Scheduler
  import opened Wrappers

  /** The fixed fields of every request id in use. */
  type Catalogue = map<string, Request>

  ghost predicate Known(cat: Catalogue, r: Request) {
    r.requestId in cat && cat[r.requestId] == r
  }

  ghost predicate Within(limit: Option<nat>, count: nat) {
    limit.Some? ==> count <= limit.value
  }

  ghost predicate WithinLimits(p: Policy, active: Active) {
    && Within(p.totalSessions, |active|)
    && (forall provider | provider != "" :: Within(p.perProvider, |OfProvider(active, provider)|))
    && (forall model :: Within(p.perModel, |OfModel(active, model)|))
    && (forall repository :: Within(p.perRepositorySubagent, |SubagentsOf(active, repository)|))
  }

  ghost predicate Distinct(queue: seq<Request>) {
    forall i, j | 0 <= i < j < |queue| :: queue[i].requestId != queue[j].requestId
  }

  ghost predicate AllBlocked(p: Policy, active: Active, queue: seq<Request>) {
    forall r | r in queue :: BlockedBy(p, active, r).Some?
  }

  /** Memory is well keyed, no request is both active and queued, and no queue entry repeats. */
  ghost predicate WellKeyed(cat: Catalogue, active: Active, queue: seq<Request>) {
    && (forall id | id in active :: active[id].requestId == id && Known(cat, active[id]))
    && (forall r | r in queue :: Known(cat, r) && r.requestId !in active)
    && Distinct(queue)
  }

  /** Whatever memory holds, the decision table says so too. */
  ghost predicate MemoryRecorded(active: Active, queue: seq<Request>, decisions: map<string, Decision>) {
    && (forall id | id in active :: id in decisions && decisions[id].status.ADMITTED?)
    && (forall r | r in queue :: r.requestId in decisions && decisions[r.requestId].status.QUEUED?)
  }

  ghost predicate Invariant(p: Policy, cat: Catalogue, s: State) {
    && WellKeyed(cat, s.active, s.queued)
    && WithinLimits(p, s.active)
    && AllBlocked(p, s.active, s.queued)
    && MemoryRecorded(s.active, s.queued, s.decisions)
    && (s.queued != [] ==> p.queueWhenLimited)
  }

  ghost predicate Uses(cat: Catalogue, ops: seq<Operation>) {
    forall op | op in ops && op.Admit? :: Known(cat, op.request)
  }

  // ---------- Counting ----------

  lemma CountsGrow(active: Active, id: string, r: Request, provider: string, model: string, repository: string)
    requires id !in active
    ensures var grown := active[id := r];
            && |grown| == |active| + 1
            && OfProvider(grown, provider) == (if ProviderOf(r, provider) then OfProvider(active, provider) + {id} else OfProvider(active, provider))
            && OfModel(grown, model) == (if r.model == model then OfModel(active, model) + {id} else OfModel(active, model))
            && SubagentsOf(grown, repository) == (if SubagentOf(r, repository) then SubagentsOf(active, repository) + {id} else SubagentsOf(active, repository))
  {
    assert active[id := r].Keys == active.Keys + {id};
    ProviderGrows(active, id, r, provider);
    ModelGrows(active, id, r, model);
    SubagentsGrow(active, id, r, repository);
  }

  lemma ProviderGrows(active: Active, id: string, r: Request, provider: string)
    requires id !in active
    ensures OfProvider(active[id := r], provider) == (if ProviderOf(r, provider) then OfProvider(active, provider) + {id} else OfProvider(active, provider))
  {
  }

  lemma ModelGrows(active: Active, id: string, r: Request, model: string)
    requires id !in active
    ensures OfModel(active[id := r], model) == (if r.model == model then OfModel(active, model) + {id} else OfModel(active, model))
  {
  }

  lemma SubagentsGrow(active: Active, id: string, r: Request, repository: string)
    requires id !in active
    ensures SubagentsOf(active[id := r], repository) == (if SubagentOf(r, repository) then SubagentsOf(active, repository) + {id} else SubagentsOf(active, repository))
  {
  }

  lemma CountsShrink(active: Active, id: string, provider: string, model: string, repository: string)
    ensures var less := active - {id};
            && |less| <= |active|
            && |OfProvider(less, provider)| <= |OfProvider(active, provider)|
            && |OfModel(less, model)| <= |OfModel(active, model)|
            && |SubagentsOf(less, repository)| <= |SubagentsOf(active, repository)|
  {
    var less := active - {id};
    SubsetSize(less.Keys, active.Keys);
    SubsetSize(OfProvider(less, provider), OfProvider(active, provider));
    SubsetSize(OfModel(less, model), OfModel(active, model));
    SubsetSize(SubagentsOf(less, repository), SubagentsOf(active, repository));
  }

  lemma CountsDoNotShrink(active: Active, id: string, r: Request, provider: string, model: string, repository: string)
    requires id !in active
    ensures var grown := active[id := r];
            && |active| <= |grown|
            && |OfProvider(active, provider)| <= |OfProvider(grown, provider)|
            && |OfModel(active, model)| <= |OfModel(grown, model)|
            && |SubagentsOf(active, repository)| <= |SubagentsOf(grown, repository)|
  {
    CountsGrow(active, id, r, provider, model, repository);
    hide OfProvider, OfModel, SubagentsOf;
    SubsetSize(OfProvider(active, provider), OfProvider(active[id := r], provider));
    SubsetSize(OfModel(active, model), OfModel(active[id := r], model));
    SubsetSize(SubagentsOf(active, repository), SubagentsOf(active[id := r], repository));
  }

  /** Admitting another request never unblocks anyone. */
  lemma BlockingIsMonotone(p: Policy, active: Active, id: string, r: Request, q: Request)
    requires id !in active && BlockedBy(p, active, q).Some?
    ensures BlockedBy(p, active[id := r], q).Some?
  {
    hide OfProvider, OfModel, SubagentsOf;
    CountsDoNotShrink(active, id, r, if q.provider.Some? then q.provider.value else "", q.model, q.repositoryId);
  }

  /** Admitting an unblocked request stays within every limit. */
  lemma AdmissionStaysWithin(p: Policy, active: Active, id: string, r: Request)
    requires p.enabled && id !in active && WithinLimits(p, active) && BlockedBy(p, active, r).None?
    ensures WithinLimits(p, active[id := r])
  {
    hide OfProvider, OfModel, SubagentsOf;
    var grown := active[id := r];
    CountsGrow(active, id, r, "", "", "");
    forall provider | provider != "" ensures Within(p.perProvider, |OfProvider(grown, provider)|) {
      CountsGrow(active, id, r, provider, "", "");
    }
    forall model ensures Within(p.perModel, |OfModel(grown, model)|) {
      CountsGrow(active, id, r, "", model, "");
    }
    forall repository ensures Within(p.perRepositorySubagent, |SubagentsOf(grown, repository)|) {
      CountsGrow(active, id, r, "", "", repository);
    }
  }

  lemma RemovalStaysWithin(p: Policy, active: Active, id: string)
    requires WithinLimits(p, active)
    ensures WithinLimits(p, active - {id})
  {
    var less := active - {id};
    CountsShrink(active, id, "", "", "");
    forall provider | provider != "" ensures Within(p.perProvider, |OfProvider(less, provider)|) {
      CountsShrink(active, id, provider, "", "");
    }
    forall model ensures Within(p.perModel, |OfModel(less, model)|) {
      CountsShrink(active, id, "", model, "");
    }
    forall repository ensures Within(p.perRepositorySubagent, |SubagentsOf(less, repository)|) {
      CountsShrink(active, id, "", "", repository);
    }
  }

  // ---------- The queue as a sequence ----------

  lemma {:induction false} EnqueueEffect(cat: Catalogue, queue: seq<Request>, r: Request)
    requires Known(cat, r) && (forall q | q in queue :: Known(cat, q)) && Distinct(queue)
    ensures Enqueue(queue, r) == if r in queue then queue else queue + [r]
  {
    if queue != [] && queue[0].requestId != r.requestId {
      EnqueueEffect(cat, queue[1..], r);
      assert queue == [queue[0]] + queue[1..];
      assert r in queue <==> r in queue[1..];
    } else if queue != [] {
      assert Known(cat, queue[0]);
      assert queue == [r] + queue[1..];
    }
  }

  lemma {:induction false} DequeueEffect(cat: Catalogue, queue: seq<Request>, id: string)
    requires (forall q | q in queue :: Known(cat, q)) && Distinct(queue)
    ensures Distinct(Dequeue(queue, id))
    ensures forall q :: q in Dequeue(queue, id) <==> q in queue && q.requestId != id
  {
    if queue != [] {
      DequeueEffect(cat, queue[1..], id);
      assert queue == [queue[0]] + queue[1..];
      var d := Dequeue(queue, id);
      if queue[0].requestId != id {
        assert d == [queue[0]] + Dequeue(queue[1..], id);
        forall i, j | 0 <= i < j < |d| ensures d[i].requestId != d[j].requestId {
          assert d[j] in Dequeue(queue[1..], id);
          if i == 0 {
            var k :| 0 <= k < |queue[1..]| && queue[1..][k] == d[j];
            assert queue[k + 1] == d[j];
          }
        }
      }
    }
  }

  // ---------- Invariance ----------

  lemma {:induction false} PassKeepsInvariant(p: Policy, cat: Catalogue, active: Active, kept: seq<Request>, rest: seq<Request>,
                                              decisions: map<string, Decision>)
    requires p.enabled && WellKeyed(cat, active, kept + rest) && WithinLimits(p, active) && AllBlocked(p, active, kept)
    requires MemoryRecorded(active, kept + rest, decisions) && (kept + rest != [] ==> p.queueWhenLimited)
    ensures Invariant(p, cat, Pass(p, active, kept, rest, decisions))
    decreases rest
  {
    if rest == [] {
      assert kept + rest == kept;
    } else {
      var r := rest[0];
      assert r in kept + rest;
      if BlockedBy(p, active, r).Some? {
        assert (kept + [r]) + rest[1..] == kept + rest;
        PassKeepsInvariant(p, cat, active, kept + [r], rest[1..], decisions);
      } else {
        SkipOne(cat, active, kept, rest);
        AdmissionStaysWithin(p, active, r.requestId, r);
        forall q | q in kept ensures BlockedBy(p, active[r.requestId := r], q).Some? {
          BlockingIsMonotone(p, active, r.requestId, r, q);
        }
        PassKeepsInvariant(p, cat, active[r.requestId := r], kept, rest[1..], WithStatus(decisions, r.requestId, ADMITTED));
      }
    }
  }

  /** Moving a request from the queue into the active map keeps both well keyed. */
  lemma SkipOne(cat: Catalogue, active: Active, kept: seq<Request>, rest: seq<Request>)
    requires rest != [] && WellKeyed(cat, active, kept + rest)
    ensures WellKeyed(cat, active[rest[0].requestId := rest[0]], kept + rest[1..])
    ensures forall q | q in kept + rest[1..] :: q.requestId != rest[0].requestId && q in kept + rest
  {
    var all, less := kept + rest, kept + rest[1..];
    assert all[|kept|] == rest[0];
    assert rest[0] in all;
    forall i | 0 <= i < |less|
      ensures less[i] == all[if i < |kept| then i else i + 1] && less[i].requestId != rest[0].requestId && less[i] in all
    {
    }
  }

  lemma StepKeepsInvariant(p: Policy, cat: Catalogue, s: State, op: Operation)
    requires p.enabled && Invariant(p, cat, s) && Uses(cat, [op])
    ensures Invariant(p, cat, Step(p, s, op))
  {
    match op
    case Admit(r) =>
      assert op in [op] && Known(cat, r);
      AdmitKeepsInvariant(p, cat, s, r);
    case Release(id) => ReleaseKeepsInvariant(p, cat, s, id);
    case Restart(listed) =>
      EmptyWithin(p);
  }

  lemma ReleaseKeepsInvariant(p: Policy, cat: Catalogue, s: State, id: string)
    requires p.enabled && Invariant(p, cat, s)
    ensures Invariant(p, cat, Released(p, s, id))
  {
    hide WithinLimits, WellKeyed, MemoryRecorded, AllBlocked, Dequeue, Pass, Distinct, Known;
    var less := Dequeue(s.queued, id);
    WellKeyedQueue(cat, s.active, s.queued);
    DequeueEffect(cat, s.queued, id);
    RemovalStaysWithin(p, s.active, id);
    RemovalKeepsKeys(cat, s.active, s.queued, less, id);
    RemovalKeepsRecord(s.active, s.queued, less, s.decisions, id);
    NothingKept(p, s.active - {id});
    assert [] + less == less;
    PassKeepsInvariant(p, cat, s.active - {id}, [], less, WithStatus(s.decisions, id, RELEASED));
  }

  lemma WellKeyedQueue(cat: Catalogue, active: Active, queue: seq<Request>)
    requires WellKeyed(cat, active, queue)
    ensures (forall q | q in queue :: Known(cat, q)) && Distinct(queue)
  {
  }

  lemma NothingKept(p: Policy, active: Active)
    ensures AllBlocked(p, active, [])
  {
  }

  lemma RemovalKeepsKeys(cat: Catalogue, active: Active, queue: seq<Request>, less: seq<Request>, id: string)
    requires WellKeyed(cat, active, queue) && Distinct(less) && forall q :: q in less <==> q in queue && q.requestId != id
    ensures WellKeyed(cat, active - {id}, less) && (less != [] ==> queue != [])
  {
    if less != [] {
      assert less[0] in queue;
    }
  }

  lemma RemovalKeepsRecord(active: Active, queue: seq<Request>, less: seq<Request>, decisions: map<string, Decision>, id: string)
    requires MemoryRecorded(active, queue, decisions) && forall q :: q in less <==> q in queue && q.requestId != id
    ensures MemoryRecorded(active - {id}, less, WithStatus(decisions, id, RELEASED))
  {
  }

  lemma AdmitKeepsInvariant(p: Policy, cat: Catalogue, s: State, r: Request)
    requires p.enabled && Invariant(p, cat, s) && Known(cat, r)
    ensures Invariant(p, cat, Admitted(p, s, r))
  {
    if r.requestId !in s.active {
      if BlockedBy(p, s.active, r).None? {
        AdmitUnblocked(p, cat, s, r);
      } else {
        EnqueueEffect(cat, s.queued, r);
        QueueGrows(p, cat, s, r);
      }
    }
  }

  lemma AdmitUnblocked(p: Policy, cat: Catalogue, s: State, r: Request)
    requires p.enabled && Invariant(p, cat, s) && Known(cat, r)
    requires r.requestId !in s.active && BlockedBy(p, s.active, r).None?
    ensures Invariant(p, cat, Admitted(p, s, r))
  {
    AdmissionStaysWithin(p, s.active, r.requestId, r);
    forall q | q in s.queued ensures BlockedBy(p, s.active[r.requestId := r], q).Some? && q.requestId != r.requestId {
      BlockingIsMonotone(p, s.active, r.requestId, r, q);
      assert q != r && Known(cat, q);
    }
  }

  lemma QueueGrows(p: Policy, cat: Catalogue, s: State, r: Request)
    requires p.enabled && Invariant(p, cat, s) && Known(cat, r)
    requires r.requestId !in s.active && BlockedBy(p, s.active, r).Some?
    requires Enqueue(s.queued, r) == if r in s.queued then s.queued else s.queued + [r]
    ensures Invariant(p, cat, Admitted(p, s, r))
  {
    hide WithinLimits, WellKeyed, AllBlocked, MemoryRecorded, BlockedBy, Enqueue;
    var after := Admitted(p, s, r);
    if p.queueWhenLimited {
      JoinKeepsKeys(cat, s.active, s.queued, r);
      JoinKeepsBlocked(p, s.active, s.queued, after.queued, r);
      JoinKeepsRecord(s.active, s.queued, after.queued, s.decisions, r, after.decisions[r.requestId]);
    } else {
      RejectionKeepsRecord(s.active, s.decisions, r.requestId, after.decisions[r.requestId]);
    }
  }

  lemma JoinKeepsKeys(cat: Catalogue, active: Active, queue: seq<Request>, r: Request)
    requires WellKeyed(cat, active, queue) && Known(cat, r) && r.requestId !in active
    ensures r !in queue ==> WellKeyed(cat, active, queue + [r])
  {
    assert forall q | q in queue && q.requestId == r.requestId :: Known(cat, q) && q == r;
  }

  lemma JoinKeepsBlocked(p: Policy, active: Active, queue: seq<Request>, joined: seq<Request>, r: Request)
    requires AllBlocked(p, active, queue) && BlockedBy(p, active, r).Some?
    requires joined == if r in queue then queue else queue + [r]
    ensures AllBlocked(p, active, joined)
  {
    hide BlockedBy;
  }

  lemma JoinKeepsRecord(active: Active, queue: seq<Request>, joined: seq<Request>,
                        decisions: map<string, Decision>, r: Request, d: Decision)
    requires MemoryRecorded(active, queue, decisions) && r.requestId !in active && d.status.QUEUED?
    requires joined == if r in queue then queue else queue + [r]
    ensures MemoryRecorded(active, joined, decisions[r.requestId := d])
  {
  }

  lemma RejectionKeepsRecord(active: Active, decisions: map<string, Decision>, id: string, d: Decision)
    requires MemoryRecorded(active, [], decisions) && id !in active
    ensures MemoryRecorded(active, [], decisions[id := d])
  {
  }

  lemma EmptyWithin(p: Policy)
    ensures WithinLimits(p, map[])
  {
    assert forall provider :: OfProvider(map[], provider) == {};
    assert forall model :: OfModel(map[], model) == {};
    assert forall repository :: SubagentsOf(map[], repository) == {};
  }

  /**
   * After every operation sequence, restarts included: the active counts respect every limit, every queued
   * request is blocked by some limit, and no request is both active and queued.
   */
  lemma {:induction false} EveryRunKeepsInvariant(p: Policy, cat: Catalogue, ops: seq<Operation>)
    requires p.enabled && Uses(cat, ops)
    ensures Invariant(p, cat, Run(p, State(map[], [], map[]), ops))
  {
    if ops == [] {
      EmptyWithin(p);
    } else {
      var n := |ops| - 1;
      EveryRunKeepsInvariant(p, cat, ops[..n]);
      StepKeepsInvariant(p, cat, Run(p, State(map[], [], map[]), ops[..n]), ops[n]);
    }
  }

  // ---------- The durable index ----------

  function QueueIds(queue: seq<Request>): set<string> {
    set q | q in queue :: q.requestId
  }

  /** Every row that claims a place in memory has it. */
  ghost predicate RowsBacked(active: Active, queue: seq<Request>, decisions: map<string, Decision>) {
    forall id | id in decisions ::
      && (decisions[id].status.ADMITTED? ==> id in active)
      && (decisions[id].status.QUEUED? ==> id in QueueIds(queue))
  }

  /** The table and memory name the same active and the same queued requests. */
  ghost predicate IndexAgrees(s: State) {
    forall id ::
      && (id in s.active <==> id in s.decisions && s.decisions[id].status.ADMITTED?)
      && (id in QueueIds(s.queued) <==> id in s.decisions && s.decisions[id].status.QUEUED?)
  }

  lemma {:induction false} PassKeepsRowsBacked(p: Policy, active: Active, kept: seq<Request>, rest: seq<Request>, decisions: map<string, Decision>)
    requires RowsBacked(active, kept + rest, decisions)
    ensures var s := Pass(p, active, kept, rest, decisions); RowsBacked(s.active, s.queued, s.decisions)
    decreases rest
  {
    if rest == [] {
      assert kept + rest == kept;
    } else {
      var r := rest[0];
      if BlockedBy(p, active, r).Some? {
        assert (kept + [r]) + rest[1..] == kept + rest;
        PassKeepsRowsBacked(p, active, kept + [r], rest[1..], decisions);
      } else {
        assert kept + rest == kept + [r] + rest[1..];
        forall q | q in kept + rest && q != r ensures q in kept + rest[1..] {
        }
        PassKeepsRowsBacked(p, active[r.requestId := r], kept, rest[1..], WithStatus(decisions, r.requestId, ADMITTED));
      }
    }
  }

  lemma StepKeepsRowsBacked(p: Policy, cat: Catalogue, s: State, op: Operation)
    requires p.enabled && Invariant(p, cat, s) && Uses(cat, [op]) && !op.Restart?
    requires RowsBacked(s.active, s.queued, s.decisions)
    ensures var after := Step(p, s, op); RowsBacked(after.active, after.queued, after.decisions)
  {
    match op
    case Admit(r) =>
      assert op in [op] && Known(cat, r);
      AdmitKeepsRowsBacked(p, cat, s, r);
    case Release(id) => ReleaseKeepsRowsBacked(p, cat, s, id);
  }

  lemma ReleaseKeepsRowsBacked(p: Policy, cat: Catalogue, s: State, id: string)
    requires Invariant(p, cat, s) && RowsBacked(s.active, s.queued, s.decisions)
    ensures var after := Released(p, s, id); RowsBacked(after.active, after.queued, after.decisions)
  {
    DequeueEffect(cat, s.queued, id);
    var less := Dequeue(s.queued, id);
    hide Invariant, Pass, Dequeue;
    assert [] + less == less;
    PassKeepsRowsBacked(p, s.active - {id}, [], less, WithStatus(s.decisions, id, RELEASED));
  }

  lemma AdmitKeepsRowsBacked(p: Policy, cat: Catalogue, s: State, r: Request)
    requires p.enabled && Invariant(p, cat, s) && Known(cat, r)
    requires RowsBacked(s.active, s.queued, s.decisions)
    ensures var after := Admitted(p, s, r); RowsBacked(after.active, after.queued, after.decisions)
  {
    QueueIdsGrow(cat, s.queued, r);
    hide Invariant, BlockedBy, Enqueue, QueueIds;
  }

  lemma QueueIdsGrow(cat: Catalogue, queue: seq<Request>, r: Request)
    requires Known(cat, r) && (forall q | q in queue :: Known(cat, q)) && Distinct(queue)
    ensures r.requestId in QueueIds(Enqueue(queue, r)) && QueueIds(queue) <= QueueIds(Enqueue(queue, r))
  {
    EnqueueEffect(cat, queue, r);
    assert forall q | q in queue :: q in queue + [r];
    assert r in queue + [r];
  }

  /** Without a restart, memory and the durable table always agree. */
  lemma {:induction false} IndexAgreesWithoutRestart(p: Policy, cat: Catalogue, ops: seq<Operation>)
    requires p.enabled && Uses(cat, ops) && forall op | op in ops :: !op.Restart?
    ensures IndexAgrees(Run(p, State(map[], [], map[]), ops))
    ensures var s := Run(p, State(map[], [], map[]), ops); RowsBacked(s.active, s.queued, s.decisions)
  {
    EveryRunKeepsInvariant(p, cat, ops);
    if ops != [] {
      var n := |ops| - 1;
      IndexAgreesWithoutRestart(p, cat, ops[..n]);
      EveryRunKeepsInvariant(p, cat, ops[..n]);
      StepKeepsRowsBacked(p, cat, Run(p, State(map[], [], map[]), ops[..n]), ops[n]);
    }
  }

  /** A restart marks stale exactly the listed rows that were ADMITTED, keeps everything else of every row, and empties memory. */
  lemma RestartMarksStaleIff(s: State, listed: set<string>, id: string)
    requires id in s.decisions
    ensures var after := Restarted(s, listed);
            && after.active == map[] && after.queued == [] && after.decisions.Keys == s.decisions.Keys
            && after.decisions[id].blockedBy == s.decisions[id].blockedBy
            && (after.decisions[id] != s.decisions[id] <==> id in listed && s.decisions[id].status.ADMITTED?)
            && (id in listed ==> !after.decisions[id].status.ADMITTED?)
  {
    assert Restarted(s, listed).decisions.Keys == s.decisions.Keys;
  }

  /** A restart keeps exactly the agreement of tables without queued or unlisted admitted rows. */
  lemma RestartAgreesIff(s: State, listed: set<string>)
    ensures IndexAgrees(Restarted(s, listed)) <==>
            forall id | id in s.decisions :: !s.decisions[id].status.QUEUED? && (s.decisions[id].status.ADMITTED? ==> id in listed)
  {
    var after := Restarted(s, listed);
    assert QueueIds(after.queued) == {};
    if IndexAgrees(after) {
      forall id | id in s.decisions
        ensures !s.decisions[id].status.QUEUED? && (s.decisions[id].status.ADMITTED? ==> id in listed)
      {
        assert id in after.decisions && id !in after.active && id !in QueueIds(after.queued);
      }
    }
  }

  // ---------- First come, first served ----------

  ghost predicate SameDemands(a: Request, b: Request) {
    a.(requestId := b.requestId) == b && a.requestId != b.requestId
  }

  ghost predicate QueuedBefore(queue: seq<Request>, a: Request, b: Request) {
    exists i :: 0 <= i < |queue| && queue[i] == a && b !in queue[..i]
  }

  /** a has been admitted, or is waiting and b has neither been admitted nor stands before it. */
  ghost predicate Ahead(active: Active, queue: seq<Request>, a: Request, b: Request) {
    a.requestId in active || (b.requestId !in active && QueuedBefore(queue, a, b))
  }

  lemma SameDemandsSameLimit(p: Policy, active: Active, a: Request, b: Request)
    requires SameDemands(a, b)
    ensures BlockedBy(p, active, a) == BlockedBy(p, active, b)
  {
  }

  lemma {:induction false} PassNeverDrops(p: Policy, active: Active, kept: seq<Request>, rest: seq<Request>, decisions: map<string, Decision>)
    ensures forall id | id in active :: id in Pass(p, active, kept, rest, decisions).active
    decreases rest
  {
    if rest != [] {
      if BlockedBy(p, active, rest[0]).Some? {
        PassNeverDrops(p, active, kept + [rest[0]], rest[1..], decisions);
      } else {
        PassNeverDrops(p, active[rest[0].requestId := rest[0]], kept, rest[1..], WithStatus(decisions, rest[0].requestId, ADMITTED));
      }
    }
  }

  lemma RemoveAt(kept: seq<Request>, rest: seq<Request>, a: Request, b: Request)
    requires rest != [] && QueuedBefore(kept + rest, a, b) && rest[0] != a
    ensures QueuedBefore(kept + rest[1..], a, b)
  {
    var all, less := kept + rest, kept + rest[1..];
    var i :| 0 <= i < |all| && all[i] == a && b !in all[..i];
    var k := if i < |kept| then i else i - 1;
    assert less[k] == a;
    forall j | 0 <= j < k ensures less[..k][j] != b {
      var m := if j < |kept| then j else j + 1;
      assert all[..i][m] == less[j];
    }
  }

  lemma {:induction false} PassKeepsAhead(p: Policy, cat: Catalogue, active: Active, kept: seq<Request>, rest: seq<Request>,
                                          decisions: map<string, Decision>, a: Request, b: Request)
    requires p.enabled && WellKeyed(cat, active, kept + rest) && AllBlocked(p, active, kept)
    requires Known(cat, a) && Known(cat, b) && SameDemands(a, b) && Ahead(active, kept + rest, a, b)
    ensures var s := Pass(p, active, kept, rest, decisions); Ahead(s.active, s.queued, a, b)
    decreases rest
  {
    PassNeverDrops(p, active, kept, rest, decisions);
    if rest == [] {
      assert kept + rest == kept;
    } else if a.requestId !in active {
      var r := rest[0];
      if BlockedBy(p, active, r).Some? {
        assert (kept + [r]) + rest[1..] == kept + rest;
        PassKeepsAhead(p, cat, active, kept + [r], rest[1..], decisions, a, b);
      } else {
        var grown := active[r.requestId := r];
        SkipOne(cat, active, kept, rest);
        forall q | q in kept ensures BlockedBy(p, grown, q).Some? {
          BlockingIsMonotone(p, active, r.requestId, r, q);
        }
        assert r in kept + rest && Known(cat, r);
        if r != a {
          RemoveAt(kept, rest, a, b);
          if r == b {
            BehindIsKept(kept, rest, a, b);
            SameDemandsSameLimit(p, active, a, b);
            assert false;
          }
        }
        PassKeepsAhead(p, cat, grown, kept, rest[1..], WithStatus(decisions, r.requestId, ADMITTED), a, b);
      }
    }
  }

  lemma BehindIsKept(kept: seq<Request>, rest: seq<Request>, a: Request, b: Request)
    requires rest != [] && rest[0] == b && a != b && QueuedBefore(kept + rest, a, b)
    ensures a in kept
  {
    var all := kept + rest;
    var i :| 0 <= i < |all| && all[i] == a && b !in all[..i];
    if i > |kept| {
      InPrefix(all, |kept|, i);
    }
  }

  lemma InPrefix(s: seq<Request>, k: nat, i: nat)
    requires k < i <= |s|
    ensures s[k] in s[..i]
  {
    assert s[..i][k] == s[k];
  }

  lemma {:induction false} DequeueKeepsBefore(queue: seq<Request>, id: string, a: Request, b: Request)
    requires QueuedBefore(queue, a, b) && id != a.requestId
    ensures QueuedBefore(Dequeue(queue, id), a, b)
  {
    SplitBefore(queue, a, b);
    hide QueuedBefore;
    if queue[0].requestId != id {
      if queue[0] != a {
        DequeueKeepsBefore(queue[1..], id, a, b);
        BeforeBehind(queue[0], Dequeue(queue[1..], id), a, b);
      } else {
        FrontIsBefore(Dequeue(queue[1..], id), a, b);
      }
    }
  }

  lemma SplitBefore(queue: seq<Request>, a: Request, b: Request)
    requires QueuedBefore(queue, a, b)
    ensures queue != [] && (queue[0] != a ==> queue[0] != b && QueuedBefore(queue[1..], a, b))
  {
    var i :| 0 <= i < |queue| && queue[i] == a && b !in queue[..i];
    if queue[0] != a {
      assert queue[1..][i - 1] == a && queue[..i][0] == queue[0];
      assert queue[..i] == [queue[0]] + queue[1..][..i - 1];
    }
  }

  lemma FrontIsBefore(tail: seq<Request>, a: Request, b: Request)
    ensures QueuedBefore([a] + tail, a, b)
  {
    assert ([a] + tail)[0] == a && b !in ([a] + tail)[..0];
  }

  lemma BeforeBehind(first: Request, tail: seq<Request>, a: Request, b: Request)
    requires QueuedBefore(tail, a, b) && first != b
    ensures QueuedBefore([first] + tail, a, b)
  {
    var k :| 0 <= k < |tail| && tail[k] == a && b !in tail[..k];
    var queue := [first] + tail;
    assert queue[k + 1] == a && queue[..k + 1] == [first] + tail[..k];
  }

  lemma EnqueueKeepsBefore(cat: Catalogue, queue: seq<Request>, r: Request, a: Request, b: Request)
    requires Known(cat, r) && (forall q | q in queue :: Known(cat, q)) && Distinct(queue) && QueuedBefore(queue, a, b)
    ensures QueuedBefore(Enqueue(queue, r), a, b)
  {
    EnqueueEffect(cat, queue, r);
    var i :| 0 <= i < |queue| && queue[i] == a && b !in queue[..i];
    assert Enqueue(queue, r)[i] == a && Enqueue(queue, r)[..i] == queue[..i];
  }

  lemma StepKeepsAhead(p: Policy, cat: Catalogue, s: State, op: Operation, a: Request, b: Request)
    requires p.enabled && Invariant(p, cat, s) && Uses(cat, [op]) && !op.Restart? && op != Release(a.requestId)
    requires Known(cat, a) && Known(cat, b) && SameDemands(a, b) && Ahead(s.active, s.queued, a, b)
    ensures var after := Step(p, s, op); Ahead(after.active, after.queued, a, b)
  {
    match op
    case Admit(r) =>
      assert op in [op] && Known(cat, r);
      if a.requestId !in s.active {
        SameDemandsSameLimit(p, s.active, a, b);
        assert a in s.queued;
        EnqueueKeepsBefore(cat, s.queued, r, a, b);
      }
    case Release(id) =>
      DequeueEffect(cat, s.queued, id);
      var less := Dequeue(s.queued, id);
      assert [] + less == less;
      if a.requestId !in s.active {
        DequeueKeepsBefore(s.queued, id, a, b);
      }
      PassKeepsAhead(p, cat, s.active - {id}, [], less, WithStatus(s.decisions, id, RELEASED), a, b);
  }

  /**
   * Of two requests with the same demands, the one queued first is admitted first: as long as it is not
   * released, the later one is only ever active once the earlier one is.
   */
  lemma {:induction false} NeverOvertaken(p: Policy, cat: Catalogue, s: State, ops: seq<Operation>, a: Request, b: Request)
    requires p.enabled && Invariant(p, cat, s) && Uses(cat, ops)
    requires forall op | op in ops :: !op.Restart? && op != Release(a.requestId)
    requires Known(cat, a) && Known(cat, b) && SameDemands(a, b)
    requires a in s.queued && b.requestId !in s.active && QueuedBefore(s.queued, a, b)
    ensures Invariant(p, cat, Run(p, s, ops))
    ensures Ahead(Run(p, s, ops).active, Run(p, s, ops).queued, a, b)
    ensures b.requestId in Run(p, s, ops).active ==> a.requestId in Run(p, s, ops).active
  {
    if ops != [] {
      var n := |ops| - 1;
      NeverOvertaken(p, cat, s, ops[..n], a, b);
      StepKeepsInvariant(p, cat, Run(p, s, ops[..n]), ops[n]);
      StepKeepsAhead(p, cat, Run(p, s, ops[..n]), ops[n], a, b);
    }
  }
}
