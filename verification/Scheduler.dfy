/** SchedulerService: admission under concurrency limits, backed by a durable decision table. */
module Scheduler {
  import opened Wrappers

  datatype Kind = PRIMARY_EXECUTOR | SUBAGENT

  datatype Request = Request(requestId: string, repositoryId: string, provider: Option<string>, model: string, kind: Kind,
                             cpuPercent: Option<real>, memoryMb: Option<real>, tokens: Option<real>, spend: Option<real>)

  /** None is an unlimited dimension. */
  datatype Policy = Policy(enabled: bool, queueWhenLimited: bool,
                           totalSessions: Option<nat>, perProvider: Option<nat>, perModel: Option<nat>, perRepositorySubagent: Option<nat>,
                           cpuPercent: Option<real>, memoryMb: Option<real>, tokenBudget: Option<real>, spendBudget: Option<real>)

  datatype Limit =
    | TOTAL_ACTIVE_INFERENCE_SESSIONS | PER_PROVIDER_CONCURRENCY | PER_MODEL_CONCURRENCY | PER_REPOSITORY_SUBAGENT_CONCURRENCY
    | MACHINE_CPU_PERCENT | MACHINE_MEMORY_MB | CAMPAIGN_TOKEN_BUDGET | CAMPAIGN_SPEND_BUDGET

  datatype Status = ADMITTED | QUEUED | REJECTED | RELEASED | STALE_RECOVERABLE

  datatype Decision = Decision(status: Status, blockedBy: Option<Limit>)

  type Active = map<string, Request>

  datatype State = State(active: Active, queued: seq<Request>, decisions: map<string, Decision>)

  // ---------- Limits ----------

  predicate ProviderOf(r: Request, provider: string) {
    r.provider == Some(provider)
  }

  predicate SubagentOf(r: Request, repositoryId: string) {
    r.repositoryId == repositoryId && r.kind.SUBAGENT?
  }

  function OfProvider(active: Active, provider: string): set<string> {
    set id | id in active && ProviderOf(active[id], provider)
  }

  function OfModel(active: Active, model: string): set<string> {
    set id | id in active && active[id].model == model
  }

  function SubagentsOf(active: Active, repositoryId: string): set<string> {
    set id | id in active && SubagentOf(active[id], repositoryId)
  }

  predicate Full(limit: Option<nat>, count: nat) {
    limit.Some? && count >= limit.value
  }

  predicate Exceeds(limit: Option<real>, demand: Option<real>) {
    limit.Some? && (if demand.Some? then demand.value else 0.0) > limit.value
  }

  /** An absent or empty provider is not counted. */
  predicate HasProvider(r: Request) {
    r.provider.Some? && r.provider.value != ""
  }

  function FirstLimit(p: Policy, active: Active, r: Request): Option<Limit> {
    if Full(p.totalSessions, |active|) then Some(TOTAL_ACTIVE_INFERENCE_SESSIONS)
    else if HasProvider(r) && Full(p.perProvider, |OfProvider(active, r.provider.value)|) then Some(PER_PROVIDER_CONCURRENCY)
    else if Full(p.perModel, |OfModel(active, r.model)|) then Some(PER_MODEL_CONCURRENCY)
    else if r.kind.SUBAGENT? && Full(p.perRepositorySubagent, |SubagentsOf(active, r.repositoryId)|) then Some(PER_REPOSITORY_SUBAGENT_CONCURRENCY)
    else if Exceeds(p.cpuPercent, r.cpuPercent) then Some(MACHINE_CPU_PERCENT)
    else if Exceeds(p.memoryMb, r.memoryMb) then Some(MACHINE_MEMORY_MB)
    else if Exceeds(p.tokenBudget, r.tokens) then Some(CAMPAIGN_TOKEN_BUDGET)
    else if Exceeds(p.spendBudget, r.spend) then Some(CAMPAIGN_SPEND_BUDGET)
    else None
  }

  function BlockedBy(p: Policy, active: Active, r: Request): Option<Limit> {
    if p.enabled then FirstLimit(p, active, r) else None
  }

  // ---------- Operations on the state ----------

  /** Map.set on the insertion-ordered queue: an existing key keeps its place. */
  function Enqueue(queue: seq<Request>, r: Request): seq<Request> {
    if queue == [] then [r]
    else if queue[0].requestId == r.requestId then [r] + queue[1..]
    else [queue[0]] + Enqueue(queue[1..], r)
  }

  function Dequeue(queue: seq<Request>, id: string): seq<Request> {
    if queue == [] then []
    else if queue[0].requestId == id then queue[1..]
    else [queue[0]] + Dequeue(queue[1..], id)
  }

  predicate InQueue(queue: seq<Request>, id: string) {
    exists i :: 0 <= i < |queue| && queue[i].requestId == id
  }

  function DecideStatus(p: Policy, blocked: bool): Status {
    if !blocked then ADMITTED else if p.queueWhenLimited then QUEUED else REJECTED
  }

  function Admitted(p: Policy, s: State, r: Request): State {
    if r.requestId in s.decisions && s.decisions[r.requestId].status.ADMITTED? && r.requestId in s.active then s
    else
      var blockedBy := BlockedBy(p, s.active, r);
      var status := DecideStatus(p, blockedBy.Some?);
      var historical := if r.requestId in s.decisions && s.decisions[r.requestId].blockedBy.Some? then s.decisions[r.requestId].blockedBy else blockedBy;
      State(if status.ADMITTED? then s.active[r.requestId := r] else s.active,
            if status.QUEUED? then Enqueue(s.queued, r) else s.queued,
            s.decisions[r.requestId := Decision(status, historical)])
  }

  /** One pass over the queue, in order, admitting whatever no limit blocks; `kept` has been passed over already. */
  function Pass(p: Policy, active: Active, kept: seq<Request>, rest: seq<Request>, decisions: map<string, Decision>): State
    decreases rest
  {
    if rest == [] then State(active, kept, decisions)
    else if BlockedBy(p, active, rest[0]).Some? then Pass(p, active, kept + [rest[0]], rest[1..], decisions)
    else Pass(p, active[rest[0].requestId := rest[0]], kept, rest[1..], WithStatus(decisions, rest[0].requestId, ADMITTED))
  }

  lemma PassOne(p: Policy, active: Active, kept: seq<Request>, rest: seq<Request>, decisions: map<string, Decision>)
    requires rest != []
    ensures Pass(p, active, kept, rest, decisions) ==
              if BlockedBy(p, active, rest[0]).Some? then Pass(p, active, kept + [rest[0]], rest[1..], decisions)
              else Pass(p, active[rest[0].requestId := rest[0]], kept, rest[1..], WithStatus(decisions, rest[0].requestId, ADMITTED))
  {
  }

  lemma PassDone(p: Policy, active: Active, kept: seq<Request>, decisions: map<string, Decision>)
    ensures Pass(p, active, kept, [], decisions) == State(active, kept, decisions)
  {
  }

  /** updateDecision: a missing row is left missing. */
  function WithStatus(decisions: map<string, Decision>, id: string, status: Status): map<string, Decision> {
    if id in decisions then decisions[id := decisions[id].(status := status)] else decisions
  }

  function Released(p: Policy, s: State, id: string): State {
    Pass(p, s.active - {id}, [], Dequeue(s.queued, id), WithStatus(s.decisions, id, RELEASED))
  }

  /** Restart and recover() without confirmed owners: memory is empty and every listed ADMITTED row goes stale. */
  function Restarted(s: State, listed: set<string>): State {
    State(map[], [], map id | id in s.decisions ::
      if id in listed && s.decisions[id].status.ADMITTED? then s.decisions[id].(status := STALE_RECOVERABLE) else s.decisions[id])
  }

  datatype Operation = Admit(request: Request) | Release(requestId: string) | Restart(listed: set<string>)

  function Step(p: Policy, s: State, op: Operation): State {
    match op
    case Admit(r) => Admitted(p, s, r)
    case Release(id) => Released(p, s, id)
    case Restart(listed) => Restarted(s, listed)
  }

  function Run(p: Policy, s: State, ops: seq<Operation>): State {
    if ops == [] then s else Step(p, Run(p, s, ops[..|ops| - 1]), ops[|ops| - 1])
  }

  // ---------- The service ----------

  class SchedulerService {
    const policy: Policy
    var active: Active
    var queued: seq<Request>
    var decisions: map<string, Decision>

    ghost function Now(): State
      reads this
    {
      State(active, queued, decisions)
    }

    constructor (policy: Policy)
      ensures this.policy == policy && Now() == State(map[], [], map[])
    {
      this.policy := policy;
      active, queued, decisions := map[], [], map[];
    }

    method Admit(request: Request) returns (decision: Decision)
      modifies this
      ensures Now() == Admitted(policy, old(Now()), request)
      ensures request.requestId in decisions && decision == decisions[request.requestId]
    {
      var id := request.requestId;
      if id in decisions && decisions[id].status.ADMITTED? && id in active {
        return decisions[id];
      }
      var blockedBy := if policy.enabled then FirstLimit(policy, active, request) else None;
      var status := if blockedBy.Some? then (if policy.queueWhenLimited then QUEUED else REJECTED) else ADMITTED;
      var historicalBlockedBy := if id in decisions && decisions[id].blockedBy.Some? then decisions[id].blockedBy else blockedBy;
      decision := Decision(status, historicalBlockedBy);
      decisions := decisions[id := decision];
      if status == ADMITTED {
        active := active[id := request];
      }
      if status == QUEUED {
        queued := Enqueue(queued, request);
      }
    }

    method Release(requestId: string) returns (decision: Option<Decision>)
      modifies this
      ensures Now() == Released(policy, old(Now()), requestId)
      ensures decision == if requestId in decisions then Some(decisions[requestId]) else None
    {
      active := active - {requestId};
      queued := Dequeue(queued, requestId);
      if requestId in decisions {
        decisions := decisions[requestId := decisions[requestId].(status := RELEASED)];
      }
      AdmitQueued();
      decision := if requestId in decisions then Some(decisions[requestId]) else None;
    }

    method AdmitQueued()
      modifies this
      ensures Now() == Pass(policy, old(active), [], old(queued), old(decisions))
    {
      hide Pass, FirstLimit;
      var i := 0;
      while i < |queued|
        invariant 0 <= i <= |queued|
        invariant Pass(policy, old(active), [], old(queued), old(decisions)) == Pass(policy, active, queued[..i], queued[i..], decisions)
        decreases |queued| - i
      {
        var request := queued[i];
        var blockedBy := if policy.enabled then FirstLimit(policy, active, request) else None;
        assert queued[i..][0] == request && queued[i..][1..] == queued[i + 1..];
        PassOne(policy, active, queued[..i], queued[i..], decisions);
        if blockedBy.Some? {
          assert queued[..i + 1] == queued[..i] + [request];
          i := i + 1;
        } else {
          active := active[request.requestId := request];
          ghost var before := queued;
          queued := queued[..i] + queued[i + 1..];
          assert queued[i..] == before[i + 1..] && queued[..i] == before[..i];
          if request.requestId in decisions {
            decisions := decisions[request.requestId := decisions[request.requestId].(status := ADMITTED)];
          }
        }
      }
      assert queued[..i] == queued && queued[i..] == [];
      PassDone(policy, active, queued, decisions);
    }

    method Recover(listed: set<string>)
      modifies this
      ensures Now() == Restarted(old(Now()), listed)
    {
      active, queued := map[], [];
      decisions := map id | id in decisions ::
        if id in listed && decisions[id].status.ADMITTED? then decisions[id].(status := STALE_RECOVERABLE) else decisions[id];
    }
  }
}
