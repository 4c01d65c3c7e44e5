/** The per-repository promise chains that serialize publications and postflight retry sweeps. */
module RepositoryLock {
  import opened Wrappers

  type RepositoryId = string

  datatype Phase = WAITING | RUNNING | SUCCEEDED | FAILED

  /** A call waits for the call whose tail it found, if it found one. */
  datatype Call = Call(repository: RepositoryId, previous: Option<nat>, phase: Phase)

  /** `tails` maps a repository to the call that was chained last; calls are numbered in the order they were made. */
  datatype State = State(calls: seq<Call>, tails: map<RepositoryId, nat>)

  /** A sweep forgets its tail once it is over; a publication leaves it behind. */
  datatype Action =
    | Chain(repository: RepositoryId)
    | Start(call: nat)
    | Settle(call: nat, ok: bool)
    | Forget(call: nat)

  const INITIAL := State([], map[])

  predicate IsOver(phase: Phase) {
    phase.SUCCEEDED? || phase.FAILED?
  }

  /** A waiting call runs as soon as its predecessor is over, whether that succeeded or failed. */
  predicate MayStart(s: State, c: nat)
    requires c < |s.calls|
  {
    && s.calls[c].phase.WAITING?
    && (s.calls[c].previous.Some? ==> s.calls[c].previous.value < |s.calls| && IsOver(s.calls[s.calls[c].previous.value].phase))
  }

  function WithPhase(s: State, c: nat, phase: Phase): State
    requires c < |s.calls|
  {
    s.(calls := s.calls[c := s.calls[c].(phase := phase)])
  }

  function Chained(s: State, repository: RepositoryId): State {
    var previous := if repository in s.tails then Some(s.tails[repository]) else None;
    State(s.calls + [Call(repository, previous, WAITING)], s.tails[repository := |s.calls|])
  }

  /** Only the call that is still the tail removes it. */
  function Forgotten(s: State, c: nat): State
    requires c < |s.calls|
  {
    var repository := s.calls[c].repository;
    if repository in s.tails && s.tails[repository] == c then s.(tails := s.tails - {repository}) else s
  }

  function Step(s: State, a: Action): State {
    match a
    case Chain(repository) => Chained(s, repository)
    case Start(c) => if c < |s.calls| && MayStart(s, c) then WithPhase(s, c, RUNNING) else s
    case Settle(c, ok) => if c < |s.calls| && s.calls[c].phase.RUNNING? then WithPhase(s, c, if ok then SUCCEEDED else FAILED) else s
    case Forget(c) => if c < |s.calls| && IsOver(s.calls[c].phase) then Forgotten(s, c) else s
  }

  function After(actions: seq<Action>): State {
    if actions == [] then INITIAL else Step(After(actions[..|actions| - 1]), actions[|actions| - 1])
  }

  // ---------- One at a time, in order ----------

  predicate Same(s: State, c: nat, d: nat)
    requires c < |s.calls| && d < |s.calls|
  {
    s.calls[c].repository == s.calls[d].repository
  }

  /** Of two calls for one repository, the later one only leaves the queue when the earlier one is over. */
  predicate InTurn(s: State, c: nat, d: nat)
    requires c < d < |s.calls|
  {
    Same(s, c, d) && !s.calls[d].phase.WAITING? ==> IsOver(s.calls[c].phase)
  }

  /** A call waits for the last call before it, or for none when all of them are over. */
  predicate WaitsForLast(s: State, c: nat, d: nat)
    requires c < d < |s.calls|
  {
    Same(s, c, d) ==>
      match s.calls[d].previous
      case None => IsOver(s.calls[c].phase)
      case Some(p) => c <= p < d && Same(s, p, d)
  }

  /** The tail is the last call of its repository; without a tail every call is over. */
  predicate TailIsLast(s: State, c: nat)
    requires c < |s.calls|
  {
    var r := s.calls[c].repository;
    if r in s.tails then c <= s.tails[r] < |s.calls| && Same(s, s.tails[r], c) else IsOver(s.calls[c].phase)
  }

  ghost predicate Invariant(s: State) {
    && (forall c, d | 0 <= c < d < |s.calls| :: InTurn(s, c, d))
    && (forall c, d | 0 <= c < d < |s.calls| :: WaitsForLast(s, c, d))
    && (forall c | 0 <= c < |s.calls| :: TailIsLast(s, c))
    && (forall d | 0 <= d < |s.calls| && s.calls[d].previous.Some? :: s.calls[d].previous.value < d && Same(s, s.calls[d].previous.value, d))
    && (forall r | r in s.tails :: s.tails[r] < |s.calls| && s.calls[s.tails[r]].repository == r)
  }

  lemma ChainKeepsInvariant(s: State, repository: RepositoryId)
    requires Invariant(s)
    ensures Invariant(Chained(s, repository))
  {
    var t := Chained(s, repository);
    forall c, d | 0 <= c < d < |t.calls|
      ensures InTurn(t, c, d) && WaitsForLast(t, c, d)
    {
      assert TailIsLast(s, c);
      if d < |s.calls| {
        assert InTurn(s, c, d) && WaitsForLast(s, c, d);
      }
    }
    forall c | 0 <= c < |t.calls|
      ensures TailIsLast(t, c)
    {
      if c < |s.calls| {
        assert TailIsLast(s, c);
      }
    }
  }

  /** A call that may start has none before it that is not over. */
  lemma StartIsNext(s: State, c: nat, d: nat)
    requires Invariant(s) && c < d < |s.calls| && Same(s, c, d) && MayStart(s, d)
    ensures IsOver(s.calls[c].phase)
  {
    assert WaitsForLast(s, c, d);
    if s.calls[d].previous.Some? && c < s.calls[d].previous.value {
      assert InTurn(s, c, s.calls[d].previous.value);
    }
  }

  lemma PhaseKeepsInvariant(s: State, e: nat, phase: Phase)
    requires Invariant(s) && e < |s.calls|
    requires IsOver(s.calls[e].phase) ==> IsOver(phase)
    requires s.calls[e].phase.WAITING? && !phase.WAITING? ==> forall c | 0 <= c < e && Same(s, c, e) :: IsOver(s.calls[c].phase)
    ensures Invariant(WithPhase(s, e, phase))
  {
    var t := WithPhase(s, e, phase);
    forall c, d | 0 <= c < d < |t.calls|
      ensures InTurn(t, c, d) && WaitsForLast(t, c, d)
    {
      assert InTurn(s, c, d) && WaitsForLast(s, c, d);
    }
    forall c | 0 <= c < |t.calls|
      ensures TailIsLast(t, c)
    {
      assert TailIsLast(s, c);
    }
  }

  lemma ForgetKeepsInvariant(s: State, e: nat)
    requires Invariant(s) && e < |s.calls| && IsOver(s.calls[e].phase)
    ensures Invariant(Forgotten(s, e))
  {
    var t := Forgotten(s, e);
    forall c, d | 0 <= c < d < |t.calls|
      ensures InTurn(t, c, d) && WaitsForLast(t, c, d)
    {
      assert InTurn(s, c, d) && WaitsForLast(s, c, d);
    }
    forall c | 0 <= c < |t.calls|
      ensures TailIsLast(t, c)
    {
      assert TailIsLast(s, c);
      if c < e {
        assert InTurn(s, c, e);
      }
    }
  }

  lemma StepKeepsInvariant(s: State, a: Action)
    requires Invariant(s)
    ensures Invariant(Step(s, a))
  {
    hide Invariant;
    match a
    case Chain(repository) => ChainKeepsInvariant(s, repository);
    case Start(d) =>
      if d < |s.calls| && MayStart(s, d) {
        forall c | 0 <= c < d && Same(s, c, d)
          ensures IsOver(s.calls[c].phase)
        {
          StartIsNext(s, c, d);
        }
        PhaseKeepsInvariant(s, d, RUNNING);
      }
    case Settle(d, ok) =>
      if d < |s.calls| && s.calls[d].phase.RUNNING? {
        PhaseKeepsInvariant(s, d, if ok then SUCCEEDED else FAILED);
      }
    case Forget(d) =>
      if d < |s.calls| && IsOver(s.calls[d].phase) {
        ForgetKeepsInvariant(s, d);
      }
  }

  lemma {:induction false} EveryRunKeepsInvariant(actions: seq<Action>)
    ensures Invariant(After(actions))
  {
    if actions != [] {
      EveryRunKeepsInvariant(actions[..|actions| - 1]);
      StepKeepsInvariant(After(actions[..|actions| - 1]), actions[|actions| - 1]);
    }
  }

  /** Over every run: two calls for one repository never run at once, and they run in the order they were made. */
  lemma RunOneAtATimeInOrder(actions: seq<Action>, c: nat, d: nat)
    requires c < d < |After(actions).calls| && Same(After(actions), c, d)
    ensures !After(actions).calls[d].phase.WAITING? ==> IsOver(After(actions).calls[c].phase)
    ensures !(After(actions).calls[c].phase.RUNNING? && After(actions).calls[d].phase.RUNNING?)
  {
    EveryRunKeepsInvariant(actions);
    assert InTurn(After(actions), c, d);
  }

  /** No failure blocks the chain: the first call of a repository that is not over is running or may start. */
  lemma FirstOpenCallMayRun(actions: seq<Action>, d: nat)
    requires d < |After(actions).calls| && !IsOver(After(actions).calls[d].phase)
    requires forall c | 0 <= c < d && Same(After(actions), c, d) :: IsOver(After(actions).calls[c].phase)
    ensures After(actions).calls[d].phase.RUNNING? || MayStart(After(actions), d)
  {
    EveryRunKeepsInvariant(actions);
    var s := After(actions);
    if s.calls[d].previous.Some? {
      assert Same(s, s.calls[d].previous.value, d);
    }
  }

  /** A new call waits for call c, for a later call of its repository, or for none because c is over. */
  predicate JoinsBehind(calls: seq<Call>, c: nat, previous: Option<nat>)
    requires c < |calls|
  {
    if previous.Some? then c <= previous.value < |calls| && calls[previous.value].repository == calls[c].repository
    else IsOver(calls[c].phase)
  }

  /** Without a tail, every call of the repository is over. */
  lemma TailsVouch(s: State, repository: RepositoryId)
    requires Invariant(s) && repository !in s.tails
    ensures forall c | 0 <= c < |s.calls| && s.calls[c].repository == repository :: IsOver(s.calls[c].phase)
  {
    forall c | 0 <= c < |s.calls| && s.calls[c].repository == repository
      ensures IsOver(s.calls[c].phase)
    {
      assert TailIsLast(s, c);
    }
  }

  // ---------- The map of tails ----------

  class Locks {
    var tails: map<RepositoryId, nat>
    ghost var calls: seq<Call>

    ghost function Now(): State
      reads this
    {
      State(calls, tails)
    }

    constructor ()
      ensures Now() == INITIAL
    {
      tails, calls := map[], [];
    }

    /**
     * withPublishLock, up to the point where the new call is chained; `call` is its number. The new call waits for the
     * repository's last call, or for none if all of them are over, and the queue stays exclusive and in order.
     */
    method ChainCall(repository: RepositoryId, call: nat) returns (previous: Option<nat>)
      requires call == |calls| && Invariant(Now())
      modifies this
      ensures Now() == Step(old(Now()), Chain(repository)) && Invariant(Now())
      ensures calls == old(calls) + [Call(repository, previous, WAITING)] && tails == old(tails)[repository := call]
      ensures forall c | 0 <= c < call && calls[c].repository == repository :: JoinsBehind(calls, c, previous)
    {
      ChainKeepsInvariant(Now(), repository);
      forall c | 0 <= c < |calls| && calls[c].repository == repository
        ensures TailIsLast(Now(), c)
      {
      }
      hide Invariant;
      previous := None;
      if repository in tails {
        previous := Some(tails[repository]);
      }
      calls := calls + [Call(repository, previous, WAITING)];
      tails := tails[repository := call];
    }

    /** What a sweep does once it is over. A call that is not over keeps its place: the tail is forgotten only with the last. */
    method ForgetCall(repository: RepositoryId, call: nat)
      requires call < |calls| && calls[call].repository == repository && IsOver(calls[call].phase) && Invariant(Now())
      modifies this`tails
      ensures Now() == Step(old(Now()), Forget(call)) && Invariant(Now())
      ensures repository in old(tails) && old(tails)[repository] == call ==> tails == old(tails) - {repository}
      ensures repository in old(tails) && old(tails)[repository] != call ==> tails == old(tails)
      ensures repository !in tails ==> forall c | 0 <= c < |calls| && calls[c].repository == repository :: IsOver(calls[c].phase)
    {
      ForgetKeepsInvariant(Now(), call);
      if repository !in Forgotten(Now(), call).tails {
        TailsVouch(Forgotten(Now(), call), repository);
      }
      hide Invariant;
      if repository in tails && tails[repository] == call {
        tails := tails - {repository};
      }
    }
  }
}
