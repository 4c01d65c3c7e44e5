/** Who is admitted, queued and rejected, in terms of counts, demands and limits. */
module SchedulerLaws {
  import opened Scheduler
  import opened SchedulerProperties
  import opened Wrappers

  // ---------- Limits ----------

  function Demand(amount: Option<real>): real {
    if amount.Some? then amount.value else 0.0
  }

  /** With these sessions active the limit leaves no room for the request. */
  predicate Reached(p: Policy, active: Active, r: Request, l: Limit) {
    match l
    case TOTAL_ACTIVE_INFERENCE_SESSIONS => p.totalSessions.Some? && p.totalSessions.value <= |active|
    case PER_PROVIDER_CONCURRENCY =>
      p.perProvider.Some? && r.provider.Some? && r.provider.value != ""
      && p.perProvider.value <= |set id | id in active && active[id].provider == r.provider|
    case PER_MODEL_CONCURRENCY => p.perModel.Some? && p.perModel.value <= |set id | id in active && active[id].model == r.model|
    case PER_REPOSITORY_SUBAGENT_CONCURRENCY =>
      p.perRepositorySubagent.Some? && r.kind == SUBAGENT
      && p.perRepositorySubagent.value <= |set id | id in active && active[id].kind == SUBAGENT && active[id].repositoryId == r.repositoryId|
    case MACHINE_CPU_PERCENT => p.cpuPercent.Some? && Demand(r.cpuPercent) > p.cpuPercent.value
    case MACHINE_MEMORY_MB => p.memoryMb.Some? && Demand(r.memoryMb) > p.memoryMb.value
    case CAMPAIGN_TOKEN_BUDGET => p.tokenBudget.Some? && Demand(r.tokens) > p.tokenBudget.value
    case CAMPAIGN_SPEND_BUDGET => p.spendBudget.Some? && Demand(r.spend) > p.spendBudget.value
  }

  /** Limits are looked at in this order. */
  function Rank(l: Limit): nat {
    match l
    case TOTAL_ACTIVE_INFERENCE_SESSIONS => 0
    case PER_PROVIDER_CONCURRENCY => 1
    case PER_MODEL_CONCURRENCY => 2
    case PER_REPOSITORY_SUBAGENT_CONCURRENCY => 3
    case MACHINE_CPU_PERCENT => 4
    case MACHINE_MEMORY_MB => 5
    case CAMPAIGN_TOKEN_BUDGET => 6
    case CAMPAIGN_SPEND_BUDGET => 7
  }

  /** A disabled policy limits nothing. */
  ghost predicate HasRoom(p: Policy, active: Active, r: Request) {
    p.enabled ==> forall l: Limit :: !Reached(p, active, r, l)
  }

  ghost predicate FirstReached(p: Policy, active: Active, r: Request, l: Limit) {
    Reached(p, active, r, l) && forall k: Limit | Rank(k) < Rank(l) :: !Reached(p, active, r, k)
  }

  lemma CountsAgree(active: Active, r: Request)
    ensures r.provider.Some? ==> OfProvider(active, r.provider.value) == set id | id in active && active[id].provider == r.provider
    ensures OfModel(active, r.model) == set id | id in active && active[id].model == r.model
    ensures SubagentsOf(active, r.repositoryId) == set id | id in active && active[id].kind == SUBAGENT && active[id].repositoryId == r.repositoryId
  {
  }

  /** A request is blocked if and only if some limit is reached, and then by the first one. */
  lemma BlockedIff(p: Policy, active: Active, r: Request)
    ensures BlockedBy(p, active, r).None? <==> HasRoom(p, active, r)
    ensures BlockedBy(p, active, r).Some? ==> FirstReached(p, active, r, BlockedBy(p, active, r).value)
  {
    CountsAgree(active, r);
    hide OfProvider, OfModel, SubagentsOf;
    if BlockedBy(p, active, r).Some? {
      assert Reached(p, active, r, BlockedBy(p, active, r).value);
    }
  }

  // ---------- Admission ----------

  /** A request that is queued again keeps its place. */
  lemma {:induction false} EnqueueKeepsPlace(queue: seq<Request>, r: Request, i: nat)
    requires i < |queue| && queue[i].requestId == r.requestId && forall j | 0 <= j < i :: queue[j].requestId != r.requestId
    ensures Enqueue(queue, r) == queue[i := r]
  {
    if i > 0 {
      assert queue[0].requestId != r.requestId && queue[1..][i - 1] == queue[i];
      assert forall j | 0 <= j < i - 1 :: queue[1..][j] == queue[j + 1];
      EnqueueKeepsPlace(queue[1..], r, i - 1);
      assert queue[i := r] == [queue[0]] + queue[1..][i - 1 := r];
    } else {
      assert queue[0 := r] == [r] + queue[1..];
    }
  }

  /** A new one goes to the end. */
  lemma {:induction false} EnqueueAtEnd(queue: seq<Request>, r: Request)
    requires forall i | 0 <= i < |queue| :: queue[i].requestId != r.requestId
    ensures Enqueue(queue, r) == queue + [r]
  {
    if queue != [] {
      assert forall i | 0 <= i < |queue| - 1 :: queue[1..][i] == queue[i + 1];
      EnqueueAtEnd(queue[1..], r);
      assert queue + [r] == [queue[0]] + (queue[1..] + [r]);
    }
  }

  /**
   * A request with room under every limit is admitted; one without is queued if the policy queues, and rejected otherwise.
   * The limit that first blocked it stays on record. A request that is admitted and active already changes nothing.
   */
  lemma AdmitLaw(p: Policy, s: State, r: Request, t: State)
    requires t == Step(p, s, Admit(r))
    ensures var id, room := r.requestId, HasRoom(p, s.active, r);
      if id in s.active && id in s.decisions && s.decisions[id].status == ADMITTED then t == s
      else
        && id in t.decisions && t.decisions == s.decisions[id := t.decisions[id]]
        && (t.decisions[id].status == ADMITTED <==> room)
        && (t.decisions[id].status == QUEUED <==> !room && p.queueWhenLimited)
        && (t.decisions[id].status == REJECTED <==> !room && !p.queueWhenLimited)
        && (if id in s.decisions && s.decisions[id].blockedBy.Some? then t.decisions[id].blockedBy == s.decisions[id].blockedBy
            else (t.decisions[id].blockedBy.None? <==> room) && (!room ==> FirstReached(p, s.active, r, t.decisions[id].blockedBy.value)))
        && t.active == (if room then s.active[id := r] else s.active)
        && t.queued == if !room && p.queueWhenLimited then Enqueue(s.queued, r) else s.queued
  {
    BlockedIff(p, s.active, r);
    hide BlockedBy, HasRoom, FirstReached, Enqueue;
  }

  // ---------- One pass over the queue ----------

  /** The active sessions once the first i of the waiting requests have had their turn, of which `admitted` names those admitted. */
  function Grown(active: Active, rest: seq<Request>, admitted: set<string>, i: nat): Active
    requires i <= |rest|
  {
    if i == 0 then active
    else
      var before := Grown(active, rest, admitted, i - 1);
      if rest[i - 1].requestId in admitted then before[rest[i - 1].requestId := rest[i - 1]] else before
  }

  /** The requests that were not admitted, in order. */
  function Waiting(rest: seq<Request>, admitted: set<string>): seq<Request> {
    if rest == [] then []
    else (if rest[0].requestId in admitted then [] else [rest[0]]) + Waiting(rest[1..], admitted)
  }

  lemma {:induction false} GrownTail(active: Active, rest: seq<Request>, admitted: set<string>, i: nat)
    requires i < |rest|
    ensures var next := if rest[0].requestId in admitted then active[rest[0].requestId := rest[0]] else active;
            Grown(active, rest, admitted, i + 1) == Grown(next, rest[1..], admitted, i)
  {
    if i > 0 {
      GrownTail(active, rest, admitted, i - 1);
      assert rest[1..][i - 1] == rest[i];
    }
  }

  ghost predicate Unique(queue: seq<Request>, active: Active) {
    Distinct(queue) && forall r | r in queue :: r.requestId !in active
  }

  /** The decision rows after a pass: an admitted request's row says so, and no other changed. */
  predicate RowsFollow(before: map<string, Decision>, after: map<string, Decision>, newly: set<string>) {
    && after.Keys == before.Keys
    && forall id | id in before :: after[id] == if id in newly then before[id].(status := ADMITTED) else before[id]
  }

  function Ids(queue: seq<Request>): set<string> {
    set r | r in queue :: r.requestId
  }

  /** Who is admitted by a pass, request by request, and what the pass leaves. */
  ghost predicate Passed(p: Policy, active: Active, kept: seq<Request>, rest: seq<Request>, decisions: map<string, Decision>, after: State) {
    && (forall i | 0 <= i < |rest| :: rest[i].requestId in after.active <==> HasRoom(p, Grown(active, rest, after.active.Keys, i), rest[i]))
    && after.active == Grown(active, rest, after.active.Keys, |rest|)
    && after.queued == kept + Waiting(rest, after.active.Keys)
    && RowsFollow(decisions, after.decisions, Ids(rest) * after.active.Keys)
  }

  /** A pass admits each waiting request in turn if and only if there is room for it beside those active and admitted before it. */
  lemma {:induction false} PassLaw(p: Policy, active: Active, kept: seq<Request>, rest: seq<Request>, decisions: map<string, Decision>)
    requires Unique(rest, active)
    ensures Passed(p, active, kept, rest, decisions, Pass(p, active, kept, rest, decisions))
    decreases rest
  {
    var after := Pass(p, active, kept, rest, decisions);
    if rest == [] {
      assert kept + [] == kept;
    } else {
      var r := rest[0];
      BlockedIff(p, active, r);
      TailUnique(rest, active);
      if BlockedBy(p, active, r).Some? {
        PassLaw(p, active, kept + [r], rest[1..], decisions);
        NotAdmitted(p, active, kept + [r], rest[1..], decisions, r.requestId);
        StepBack(p, active, kept, rest, decisions, active, kept + [r], decisions, after);
      } else {
        var grown, rows := active[r.requestId := r], WithStatus(decisions, r.requestId, ADMITTED);
        PassLaw(p, grown, kept, rest[1..], rows);
        PassNeverDrops(p, grown, kept, rest[1..], rows);
        StepBack(p, active, kept, rest, decisions, grown, kept, rows, after);
      }
    }
  }

  lemma TailUnique(rest: seq<Request>, active: Active)
    requires rest != [] && Unique(rest, active)
    ensures Unique(rest[1..], active) && Unique(rest[1..], active[rest[0].requestId := rest[0]]) && rest[0].requestId !in Ids(rest[1..]) && rest[0].requestId !in active
  {
    assert forall i | 0 <= i < |rest| - 1 :: rest[1..][i] == rest[i + 1];
    assert rest[0] in rest;
  }

  /** A pass admits nobody who does not wait. */
  lemma {:induction false} NotAdmitted(p: Policy, active: Active, kept: seq<Request>, rest: seq<Request>, decisions: map<string, Decision>, id: string)
    requires id !in active && id !in Ids(rest)
    ensures id !in Pass(p, active, kept, rest, decisions).active
    decreases rest
  {
    if rest != [] {
      assert rest[0] in rest && rest[0].requestId in Ids(rest);
      assert forall q | q in rest[1..] :: q in rest && q.requestId in Ids(rest);
      if BlockedBy(p, active, rest[0]).Some? {
        NotAdmitted(p, active, kept + [rest[0]], rest[1..], decisions, id);
      } else {
        NotAdmitted(p, active[rest[0].requestId := rest[0]], kept, rest[1..], WithStatus(decisions, rest[0].requestId, ADMITTED), id);
      }
    }
  }

  /** From the pass over all but the first request to the whole pass. */
  lemma StepBack(p: Policy, active: Active, kept: seq<Request>, rest: seq<Request>, decisions: map<string, Decision>,
                 next: Active, keptNext: seq<Request>, rows: map<string, Decision>, after: State)
    requires rest != [] && rest[0].requestId !in Ids(rest[1..]) && Passed(p, next, keptNext, rest[1..], rows, after)
    requires rest[0].requestId in after.active <==> HasRoom(p, active, rest[0])
    requires next == if rest[0].requestId in after.active then active[rest[0].requestId := rest[0]] else active
    requires keptNext == if rest[0].requestId in after.active then kept else kept + [rest[0]]
    requires rows == if rest[0].requestId in after.active then WithStatus(decisions, rest[0].requestId, ADMITTED) else decisions
    ensures Passed(p, active, kept, rest, decisions, after)
  {
    hide HasRoom, RowsFollow, Waiting, Grown, Ids, WithStatus;
    forall i | 0 <= i < |rest|
      ensures rest[i].requestId in after.active <==> HasRoom(p, Grown(active, rest, after.active.Keys, i), rest[i])
    {
      AdmissionStepsBack(p, active, rest, next, after.active.Keys, i);
    }
    GrownTail(active, rest, after.active.Keys, |rest| - 1);
    RowsStepBack(decisions, rows, after.decisions, rest, after.active.Keys);
    WaitingStepBack(kept, rest, after.active.Keys);
  }

  lemma AdmissionStepsBack(p: Policy, active: Active, rest: seq<Request>, next: Active, admitted: set<string>, i: nat)
    requires i < |rest| && next == if rest[0].requestId in admitted then active[rest[0].requestId := rest[0]] else active
    requires rest[0].requestId in admitted <==> HasRoom(p, active, rest[0])
    requires forall j | 0 <= j < |rest[1..]| :: rest[1..][j].requestId in admitted <==> HasRoom(p, Grown(next, rest[1..], admitted, j), rest[1..][j])
    ensures rest[i].requestId in admitted <==> HasRoom(p, Grown(active, rest, admitted, i), rest[i])
  {
    hide HasRoom;
    if i > 0 {
      GrownTail(active, rest, admitted, i - 1);
      assert rest[1..][i - 1] == rest[i];
    }
  }

  lemma WaitingStepBack(kept: seq<Request>, rest: seq<Request>, admitted: set<string>)
    requires rest != []
    ensures kept + Waiting(rest, admitted) == (if rest[0].requestId in admitted then kept else kept + [rest[0]]) + Waiting(rest[1..], admitted)
  {
  }

  lemma RowsStepBack(decisions: map<string, Decision>, rows: map<string, Decision>, after: map<string, Decision>, rest: seq<Request>, admitted: set<string>)
    requires rest != [] && rest[0].requestId !in Ids(rest[1..]) && RowsFollow(rows, after, Ids(rest[1..]) * admitted)
    requires rows == if rest[0].requestId in admitted then WithStatus(decisions, rest[0].requestId, ADMITTED) else decisions
    ensures RowsFollow(decisions, after, Ids(rest) * admitted)
  {
    assert rest == [rest[0]] + rest[1..];
    assert Ids(rest) == {rest[0].requestId} + Ids(rest[1..]);
  }

  /**
   * A release: the request is gone from memory and its row says so; then each waiting request gets its turn, in order, and
   * is admitted if and only if there is room for it. Nobody else moves.
   */
  lemma ReleaseLaw(p: Policy, cat: Catalogue, s: State, id: string, t: State)
    requires WellKeyed(cat, s.active, s.queued) && t == Step(p, s, Release(id))
    ensures id !in t.active && id !in Ids(t.queued)
    ensures exists less: seq<Request>, rows: map<string, Decision> ::
      && Distinct(less) && (forall q :: q in less <==> q in s.queued && q.requestId != id)
      && rows == (if id in s.decisions then s.decisions[id := s.decisions[id].(status := RELEASED)] else s.decisions)
      && Passed(p, s.active - {id}, [], less, rows, t)
  {
    DequeueEffect(cat, s.queued, id);
    var less, rows := Dequeue(s.queued, id), WithStatus(s.decisions, id, RELEASED);
    hide Dequeue;
    PassLaw(p, s.active - {id}, [], less, rows);
    NotAdmitted(p, s.active - {id}, [], less, rows, id);
    WaitingFrom(less, t.active.Keys);
  }

  lemma {:induction false} WaitingFrom(rest: seq<Request>, admitted: set<string>)
    ensures forall q | q in Waiting(rest, admitted) :: q in rest
  {
    if rest != [] {
      WaitingFrom(rest[1..], admitted);
    }
  }
}
