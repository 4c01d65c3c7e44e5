/** What happens to each packet of an ordered list when its worker commit is replayed onto main. */
module PacketOutcomes {
  import opened Digraph
  import opened PacketOrder
  import opened Wrappers

  datatype ResultStatus = COMPLETED | FAILED | BLOCKED | CANCELLED | SKIPPED | SKIPPED_DEPENDENCY | INTEGRATION_CONFLICT

  datatype Worktree = Worktree(worktreeId: string, branch: string, commitSha: Option<string>)

  datatype PacketResult = PacketResult(packetId: PacketId, status: ResultStatus, worktree: Option<Worktree>,
                                       filesChanged: seq<string>)

  type Results = map<PacketId, PacketResult>

  datatype WorktreeRow = WorktreeRow(repositoryId: string, packetId: PacketId, branch: string)

  datatype MainStatus = StatusUnavailable | Dirty | Clean

  /**
   * What git and the durable tables answer during one integration. Each packet is attempted at most once, so
   * gitAccepts fixes the outcome of its branch check and cherry-pick; an accepted pick appends one commit to main.
   */
  datatype Environment = Environment(repositoryId: string, mainStatus: MainStatus,
                                     worktrees: map<string, WorktreeRow>, gitAccepts: set<PacketId>)

  datatype ReportStatus = ReportCompleted | ReportPartial | ReportConflict | ReportBlocked

  datatype Report = Report(status: ReportStatus, integratedPacketIds: seq<PacketId>, results: Results)

  // ---------- One packet ----------

  datatype Outcome = Integrated | Kept | NoResult | DependencyMissing | PathOverlap | NoProvenance | GitRefused

  function Normalise(path: string): string {
    seq(|path|, i requires 0 <= i < |path| => if path[i] == '\\' then '/' else path[i])
  }

  function ChangedPaths(r: PacketResult): set<string> {
    set f | f in r.filesChanged :: Normalise(f)
  }

  /** The first changed path that is already integrated, as Array.prototype.find returns it. */
  function FirstOverlap(files: seq<string>, taken: set<string>): (r: Option<string>)
    ensures r.None? <==> forall f | f in files :: Normalise(f) !in taken
    ensures r.Some? ==> r.value in taken && exists f :: f in files && Normalise(f) == r.value
  {
    if files == [] then None
    else if Normalise(files[0]) in taken then Some(Normalise(files[0]))
    else FirstOverlap(files[1..], taken)
  }

  /** The code tests the found path for truth, so the empty path counts as no overlap. */
  predicate OverlapDetected(files: seq<string>, taken: set<string>) {
    FirstOverlap(files, taken).Some? && FirstOverlap(files, taken).value != ""
  }

  predicate HasProvenance(r: PacketResult) {
    r.worktree.Some? && r.worktree.value.commitSha.Some? && r.worktree.value.commitSha.value != "" && r.worktree.value.branch != ""
  }

  predicate WorktreeMatches(env: Environment, p: Packet, w: Worktree) {
    w.worktreeId in env.worktrees && env.worktrees[w.worktreeId] == WorktreeRow(env.repositoryId, p.packetId, w.branch)
  }

  /** The paths already on main after integrating the given packets. */
  function TakenPaths(input: Results, integrated: seq<PacketId>): set<string> {
    set id, f | id in integrated && id in input && f in input[id].filesChanged :: Normalise(f)
  }

  /** What happens to a packet once the packets before it are settled. */
  function OutcomeOf(env: Environment, input: Results, p: Packet, integrated: seq<PacketId>): Outcome {
    if p.packetId !in input then (if p.dependencies != [] then DependencyMissing else NoResult)
    else if !input[p.packetId].status.COMPLETED? then Kept
    else if exists d | d in p.dependencies :: d !in integrated then DependencyMissing
    else if OverlapDetected(input[p.packetId].filesChanged, TakenPaths(input, integrated)) then PathOverlap
    else if !HasProvenance(input[p.packetId]) then NoProvenance
    else if !WorktreeMatches(env, p, input[p.packetId].worktree.value) || p.packetId !in env.gitAccepts then GitRefused
    else Outcome.Integrated
  }

  /** The packets among the first n of the order that reach main, in order. */
  function IntegratedIds(env: Environment, input: Results, order: seq<Packet>, n: nat): seq<PacketId>
    requires n <= |order|
  {
    if n == 0 then []
    else
      var before := IntegratedIds(env, input, order, n - 1);
      if OutcomeOf(env, input, order[n - 1], before).Integrated? then before + [order[n - 1].packetId] else before
  }

  function OutcomeAt(env: Environment, input: Results, order: seq<Packet>, i: nat): Outcome
    requires i < |order|
  {
    OutcomeOf(env, input, order[i], IntegratedIds(env, input, order, i))
  }

  /** The commits the integrated packets contribute. */
  function Commits(input: Results, integrated: seq<PacketId>): seq<string> {
    seq(|integrated|, i requires 0 <= i < |integrated| => CommitOf(input, integrated[i]))
  }

  function CommitOf(input: Results, id: PacketId): string {
    if id in input && HasProvenance(input[id]) then input[id].worktree.value.commitSha.value else ""
  }

  function SettledStatus(o: Outcome, given: ResultStatus): ResultStatus {
    match o
    case Integrated => COMPLETED
    case Kept => given
    case NoResult => BLOCKED
    case DependencyMissing => SKIPPED_DEPENDENCY
    case PathOverlap => INTEGRATION_CONFLICT
    case NoProvenance => BLOCKED
    case GitRefused => INTEGRATION_CONFLICT
  }

  /** The result a settled packet ends with. */
  function SettledResult(input: Results, id: PacketId, o: Outcome): PacketResult {
    if id in input then input[id].(status := SettledStatus(o, input[id].status))
    else PacketResult(id, SettledStatus(o, FAILED), None, [])
  }

  predicate IsFailure(s: ResultStatus) {
    s.FAILED? || s.BLOCKED? || s.CANCELLED? || s.SKIPPED? || s.SKIPPED_DEPENDENCY?
  }

  /** No later result is for the same packet. */
  predicate IsLast(results: seq<PacketResult>, i: nat)
    requires i < |results|
  {
    forall j | i < j < |results| :: results[j].packetId != results[i].packetId
  }

  /** new Map over the results: of several for one packet the last counts. */
  function ByPacket(results: seq<PacketResult>): (m: Results)
    ensures forall id | id in m :: m[id].packetId == id && m[id] in results
    ensures forall r | r in results :: r.packetId in m
  {
    if results == [] then map[]
    else
      var last := results[|results| - 1];
      assert forall r | r in results :: r == last || r in results[..|results| - 1];
      ByPacket(results[..|results| - 1])[last.packetId := last]
  }

  lemma {:induction false} LastCounts(results: seq<PacketResult>, i: nat)
    requires i < |results| && IsLast(results, i)
    ensures results[i].packetId in ByPacket(results) && ByPacket(results)[results[i].packetId] == results[i]
  {
    var n := |results| - 1;
    if i < n {
      assert IsLast(results[..n], i) && results[n].packetId != results[i].packetId;
      LastCounts(results[..n], i);
    }
  }

  // ---------- Properties of the settled set ----------

  lemma {:induction false} MembersIntegrated(env: Environment, input: Results, order: seq<Packet>, n: nat, id: PacketId)
    requires n <= |order|
    ensures id in IntegratedIds(env, input, order, n) <==>
            exists i :: 0 <= i < n && order[i].packetId == id && OutcomeAt(env, input, order, i).Integrated?
  {
    if n > 0 {
      MembersIntegrated(env, input, order, n - 1, id);
      assert OutcomeAt(env, input, order, n - 1).Integrated? ==> order[n - 1].packetId in IntegratedIds(env, input, order, n);
    }
  }

  lemma {:induction false} IntegratedPrefix(env: Environment, input: Results, order: seq<Packet>, m: nat, n: nat)
    requires m <= n <= |order|
    ensures IntegratedIds(env, input, order, m) <= IntegratedIds(env, input, order, n)
  {
    if m < n {
      IntegratedPrefix(env, input, order, m, n - 1);
    }
  }

  /** Integrated packets stand on main after everything they depend on. */
  lemma IntegratedIsDependencyClosed(env: Environment, input: Results, order: seq<Packet>, i: nat)
    requires i < |order| && OutcomeAt(env, input, order, i).Integrated?
    ensures forall d | d in order[i].dependencies :: d in IntegratedIds(env, input, order, i)
    ensures order[i].packetId in IntegratedIds(env, input, order, |order|)
    ensures forall d | d in order[i].dependencies :: d in IntegratedIds(env, input, order, |order|)
  {
    IntegratedPrefix(env, input, order, i, |order|);
    MembersIntegrated(env, input, order, |order|, order[i].packetId);
  }

  /** The integrated ids are the order with the other packets struck out. */
  lemma {:induction false} IntegratedInOrder(env: Environment, input: Results, order: seq<Packet>, n: nat) returns (at: seq<nat>)
    requires n <= |order|
    ensures |at| == |IntegratedIds(env, input, order, n)|
    ensures forall k | 0 <= k < |at| :: at[k] < n && order[at[k]].packetId == IntegratedIds(env, input, order, n)[k]
    ensures forall k | 0 <= k < |at| :: OutcomeAt(env, input, order, at[k]).Integrated?
    ensures forall k, m | 0 <= k < m < |at| :: at[k] < at[m]
  {
    at := [];
    if n > 0 {
      at := IntegratedInOrder(env, input, order, n - 1);
      if OutcomeAt(env, input, order, n - 1).Integrated? {
        at := at + [n - 1];
      }
    }
  }

  /**
   * Two integrated packets share a changed path exactly when both list the empty path: the second of them is
   * only let through because its first overlap was the empty path.
   */
  lemma SharedPathsAreEmptyPaths(env: Environment, input: Results, order: seq<Packet>, i: nat)
    requires i < |order| && OutcomeAt(env, input, order, i).Integrated?
    ensures var taken := TakenPaths(input, IntegratedIds(env, input, order, i));
            ChangedPaths(input[order[i].packetId]) * taken != {} <==>
            "" in input[order[i].packetId].filesChanged && "" in taken
  {
    var r := input[order[i].packetId];
    var taken := TakenPaths(input, IntegratedIds(env, input, order, i));
    var found := FirstOverlap(r.filesChanged, taken);
    assert Normalise("") == "";
    if ChangedPaths(r) * taken != {} {
      var path :| path in ChangedPaths(r) * taken;
      var f :| f in r.filesChanged && Normalise(f) == path;
      assert found.Some?;
      var e :| e in r.filesChanged && Normalise(e) == found.value;
      assert |Normalise(e)| == |e|;
      assert e == "";
    }
    if "" in r.filesChanged && "" in taken {
      assert "" in ChangedPaths(r) * taken;
    }
  }

  /** The result schema admits no empty path; recorded results, and so the results a strategy integrates, passed it. */
  predicate SchemaValid(r: PacketResult) {
    "" !in r.filesChanged
  }

  /** Integrated packets change pairwise disjoint paths. */
  lemma IntegratedPathsDisjoint(env: Environment, input: Results, order: seq<Packet>, i: nat, j: nat)
    requires forall id | id in input :: SchemaValid(input[id])
    requires i < j < |order|
    requires OutcomeAt(env, input, order, i).Integrated? && OutcomeAt(env, input, order, j).Integrated?
    ensures ChangedPaths(input[order[i].packetId]) !! ChangedPaths(input[order[j].packetId])
  {
    SharedPathsAreEmptyPaths(env, input, order, j);
    MembersIntegrated(env, input, order, j, order[i].packetId);
    var taken := TakenPaths(input, IntegratedIds(env, input, order, j));
    forall path | path in ChangedPaths(input[order[i].packetId]) ensures path in taken {
      var f :| f in input[order[i].packetId].filesChanged && Normalise(f) == path;
    }
  }

  predicate DisjointPaths(input: Results, ids: seq<PacketId>, a: nat, b: nat)
    requires a < |ids| && b < |ids|
  {
    ids[a] in input && ids[b] in input && ChangedPaths(input[ids[a]]) !! ChangedPaths(input[ids[b]])
  }

  /** No normalised path is changed by two entries of the integrated list. */
  lemma IntegratedIdsDisjoint(env: Environment, input: Results, order: seq<Packet>)
    requires forall id | id in input :: SchemaValid(input[id])
    ensures var ids := IntegratedIds(env, input, order, |order|);
            forall a, b | 0 <= a < b < |ids| :: DisjointPaths(input, ids, a, b)
  {
    var ids := IntegratedIds(env, input, order, |order|);
    var at := IntegratedInOrder(env, input, order, |order|);
    forall a, b | 0 <= a < b < |ids|
      ensures DisjointPaths(input, ids, a, b)
    {
      IntegratedPathsDisjoint(env, input, order, at[a], at[b]);
    }
  }

  // The schema matters: what the truth test alone would let through.

  /** The packet has a completed result that git takes, whose list of changed paths begins with an empty one. */
  predicate BeginsEmpty(env: Environment, input: Results, p: Packet) {
    && p.dependencies == [] && p.packetId in input && input[p.packetId].status.COMPLETED?
    && input[p.packetId].filesChanged != [] && input[p.packetId].filesChanged[0] == ""
    && HasProvenance(input[p.packetId]) && WorktreeMatches(env, p, input[p.packetId].worktree.value) && p.packetId in env.gitAccepts
  }

  /** Two such packets both land on main, whatever other paths they have in common. */
  lemma EmptyPathsBothLand(env: Environment, input: Results, order: seq<Packet>)
    requires |order| == 2 && BeginsEmpty(env, input, order[0]) && BeginsEmpty(env, input, order[1])
    ensures OutcomeAt(env, input, order, 0).Integrated? && OutcomeAt(env, input, order, 1).Integrated?
  {
    hide FirstOverlap, TakenPaths, OverlapDetected;
    var first, second := order[0].packetId, order[1].packetId;
    NothingTaken(input, input[first].filesChanged);
    assert IntegratedIds(env, input, order, 0) == [];
    assert IntegratedIds(env, input, order, 1) == [first];
    EmptyPathTaken(input, [first], first, input[second].filesChanged);
  }

  /** A concrete pair of results that lands on main although both change the same path. */
  lemma EmptyPathHidesOverlap()
    ensures exists env: Environment, input: Results, order: seq<Packet> :: |order| == 2 && DistinctIds(order)
              && OutcomeAt(env, input, order, 0).Integrated? && OutcomeAt(env, input, order, 1).Integrated?
              && "a" in ChangedPaths(input[order[0].packetId]) && "a" in ChangedPaths(input[order[1].packetId])
  {
    var w := Worktree("w", "b", Some("1"));
    assert |"p"| != |"qq"| && |"w"| != |"xx"|;
    var first, second := PacketResult("p", COMPLETED, Some(w), ["", "a"]), PacketResult("qq", COMPLETED, Some(w.(worktreeId := "xx")), ["", "a"]);
    var input: Results := map["p" := first, "qq" := second];
    var env := Environment("r", Clean, map["w" := WorktreeRow("r", "p", "b"), "xx" := WorktreeRow("r", "qq", "b")], {"p", "qq"});
    var order := [Packet("p", []), Packet("qq", [])];
    EmptyPathFirst(first);
    EmptyPathFirst(second);
    hide ChangedPaths, OutcomeAt;
    EmptyPathsBothLand(env, input, order);
  }

  lemma EmptyPathFirst(r: PacketResult)
    requires r.filesChanged == ["", "a"]
    ensures "a" in ChangedPaths(r)
  {
    assert r.filesChanged[1] in r.filesChanged && Normalise(r.filesChanged[1]) == "a";
  }

  lemma NothingTaken(input: Results, files: seq<string>)
    ensures !OverlapDetected(files, TakenPaths(input, []))
  {
    assert TakenPaths(input, []) == {};
  }

  /** Once an empty path is taken, a list that begins with one hides every other overlap. */
  lemma EmptyPathTaken(input: Results, integrated: seq<PacketId>, id: PacketId, files: seq<string>)
    requires id in integrated && id in input && input[id].filesChanged != [] && input[id].filesChanged[0] == ""
    requires files != [] && files[0] == ""
    ensures !OverlapDetected(files, TakenPaths(input, integrated))
  {
    assert input[id].filesChanged[0] in input[id].filesChanged;
    assert Normalise("") == "" && Normalise(input[id].filesChanged[0]) in TakenPaths(input, integrated);
  }

  lemma NothingYet(input: Results)
    ensures TakenPaths(input, []) == {}
  {
  }

  // ---------- The records ----------

  predicate Conflicting(o: Outcome) {
    o.PathOverlap? || o.GitRefused?
  }

  /** The lifecycle status written for a settled packet; a kept result writes none. */
  function RowStatus(o: Outcome): ResultStatus {
    match o
    case Integrated => COMPLETED
    case DependencyMissing => SKIPPED_DEPENDENCY
    case _ => BLOCKED
  }

  /** Results and rows once the first n packets of the order are settled. */
  ghost predicate SettledUpTo(env: Environment, input: Results, order: seq<Packet>, n: nat, initial: Books, b: Books)
    requires n <= |order|
  {
    && (forall i | 0 <= i < n :: SettledAt(env, input, order, i, initial, b))
    && (forall id | Untouched(order, n, id) :: (id in b.results <==> id in input) && (id in input ==> id in b.results && b.results[id] == input[id])
                                               && SameAt(b.rows, initial.rows, id) && SameAt(b.saved, initial.saved, id))
  }

  ghost predicate SettledAt(env: Environment, input: Results, order: seq<Packet>, i: nat, initial: Books, b: Books)
    requires i < |order|
  {
    var id, o := order[i].packetId, OutcomeAt(env, input, order, i);
    && id in b.results && b.results[id] == SettledResult(input, id, o)
    && (if o.Kept? then SameAt(b.rows, initial.rows, id) else id in b.rows && b.rows[id] == RowStatus(o))
    && (if o.Kept? || o.Integrated? then SameAt(b.saved, initial.saved, id) else id in b.saved && b.saved[id] == b.results[id])
  }

  ghost predicate Untouched(order: seq<Packet>, n: nat, id: PacketId)
    requires n <= |order|
  {
    forall i | 0 <= i < n :: order[i].packetId != id
  }

  predicate SameAt<V(==)>(a: map<PacketId, V>, b: map<PacketId, V>, id: PacketId) {
    (id in a <==> id in b) && (id in a && id in b ==> a[id] == b[id])
  }

  /** The results in memory and the rows written for them. */
  datatype Books = Books(results: Results, saved: Results, rows: map<PacketId, ResultStatus>)

  function Settle(input: Results, id: PacketId, o: Outcome, b: Books): Books {
    var result := SettledResult(input, id, o);
    Books(b.results[id := result],
          if o.Kept? || o.Integrated? then b.saved else b.saved[id := result],
          if o.Kept? then b.rows else b.rows[id := RowStatus(o)])
  }

  /** Settling the first n packets of the order one after the other. */
  function SettleAll(env: Environment, input: Results, order: seq<Packet>, n: nat, b: Books): Books
    requires n <= |order|
  {
    if n == 0 then b
    else Settle(input, order[n - 1].packetId, OutcomeAt(env, input, order, n - 1), SettleAll(env, input, order, n - 1, b))
  }

  lemma {:induction false} BooksSettled(env: Environment, input: Results, order: seq<Packet>, n: nat, b: Books)
    requires n <= |order| && DistinctIds(order) && b.results == input
    ensures SettledUpTo(env, input, order, n, b, SettleAll(env, input, order, n, b))
  {
    if n == 0 {
      NothingSettled(env, input, order, b);
    } else {
      BooksSettled(env, input, order, n - 1, b);
      SettleOne(env, input, order, n, b, SettleAll(env, input, order, n - 1, b), SettleAll(env, input, order, n, b));
    }
  }

  lemma NothingSettled(env: Environment, input: Results, order: seq<Packet>, b: Books)
    requires b.results == input
    ensures SettledUpTo(env, input, order, 0, b, b)
  {
  }

  lemma SettleOne(env: Environment, input: Results, order: seq<Packet>, n: nat, initial: Books, b: Books, after: Books)
    requires 0 < n <= |order| && DistinctIds(order) && SettledUpTo(env, input, order, n - 1, initial, b)
    requires after == Settle(input, order[n - 1].packetId, OutcomeAt(env, input, order, n - 1), b)
    ensures SettledUpTo(env, input, order, n, initial, after)
  {
    assert Untouched(order, n - 1, order[n - 1].packetId);
    forall i | 0 <= i < n ensures SettledAt(env, input, order, i, initial, after) {
      if i < n - 1 {
        assert SettledAt(env, input, order, i, initial, b);
        assert order[i].packetId != order[n - 1].packetId;
      }
    }
    forall id | Untouched(order, n, id)
      ensures (id in after.results <==> id in input) && (id in input ==> id in after.results && after.results[id] == input[id])
              && SameAt(after.rows, initial.rows, id) && SameAt(after.saved, initial.saved, id)
    {
      assert Untouched(order, n - 1, id) && id != order[n - 1].packetId;
    }
  }

  /** When a packet's turn comes it is unsettled, and each of its dependencies has its final result. */
  lemma PacketReady(env: Environment, input: Results, order: seq<Packet>, n: nat, b: Books)
    requires n < |order| && DependenciesFirst(order) && DistinctIds(order)
    requires b.results == input && forall id | id in input :: input[id].packetId == id
    ensures var p, results := order[n], SettleAll(env, input, order, n, b).results;
            && (forall d | d in p.dependencies :: d in results && results[d].packetId == d)
            && (p.packetId in results <==> p.packetId in input)
            && (p.packetId in input ==> results[p.packetId] == input[p.packetId])
  {
    BooksSettled(env, input, order, n, b);
    assert Untouched(order, n, order[n].packetId);
    var after := SettleAll(env, input, order, n, b);
    forall d | d in order[n].dependencies ensures d in after.results && after.results[d].packetId == d {
      var p :| p in order[..n] && p.packetId == d;
      var i :| 0 <= i < n && order[i] == p;
      assert SettledAt(env, input, order, i, b, after);
    }
  }

  /** The packets that end COMPLETED are the integrated ones, and each of them contributed the commit it carried. */
  lemma CompletedIffIntegrated(env: Environment, input: Results, order: seq<Packet>, initial: Books, b: Books, i: nat)
    requires i < |order| && DistinctIds(order) && SettledUpTo(env, input, order, |order|, initial, b)
    ensures order[i].packetId in b.results
    ensures b.results[order[i].packetId].status.COMPLETED? <==> order[i].packetId in IntegratedIds(env, input, order, |order|)
    ensures order[i].packetId in IntegratedIds(env, input, order, |order|) ==>
              order[i].packetId in input && HasProvenance(input[order[i].packetId])
              && CommitOf(input, order[i].packetId) == input[order[i].packetId].worktree.value.commitSha.value
  {
    MembersIntegrated(env, input, order, |order|, order[i].packetId);
    assert SettledAt(env, input, order, i, initial, b);
    if order[i].packetId in IntegratedIds(env, input, order, |order|) {
      var k :| 0 <= k < |order| && order[k].packetId == order[i].packetId && OutcomeAt(env, input, order, k).Integrated?;
      assert k == i;
    }
  }

  function StatusOf(conflict: bool, integrated: nat, total: nat, failure: bool): ReportStatus {
    if conflict then ReportConflict
    else if integrated == total && !failure then ReportCompleted
    else if integrated > 0 then ReportPartial
    else ReportBlocked
  }

  lemma TakenGrows(input: Results, ids: seq<PacketId>, id: PacketId)
    requires id in input
    ensures TakenPaths(input, ids + [id]) == TakenPaths(input, ids) + ChangedPaths(input[id])
  {
    assert forall x :: x in ids + [id] <==> x in ids || x == id;
  }

  lemma CommitsGrow(input: Results, ids: seq<PacketId>, id: PacketId)
    ensures Commits(input, ids + [id]) == Commits(input, ids) + [CommitOf(input, id)]
  {
  }
}
