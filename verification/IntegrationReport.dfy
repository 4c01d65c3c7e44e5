/** What an integration report says, in terms of its inputs and of the report itself. */
module IntegrationReport {
  import opened Digraph
  import opened PacketOrder
  import opened PacketOutcomes
  import opened Wrappers

  // ---------- One packet ----------

  predicate IsSlash(c: char) {
    c == '/' || c == '\\'
  }

  /** Two paths that differ at most in the direction of their slashes. */
  predicate SamePath(a: string, b: string) {
    |a| == |b| && forall i | 0 <= i < |a| :: a[i] == b[i] || (IsSlash(a[i]) && IsSlash(b[i]))
  }

  lemma NormaliseEqualIff(a: string, b: string)
    ensures Normalise(a) == Normalise(b) <==> SamePath(a, b)
  {
    assert |Normalise(a)| == |a| && |Normalise(b)| == |b|;
    if Normalise(a) == Normalise(b) {
      forall i | 0 <= i < |a|
        ensures a[i] == b[i] || (IsSlash(a[i]) && IsSlash(b[i]))
      {
        assert Normalise(a)[i] == Normalise(b)[i];
      }
    }
  }

  /** The packets before position i that were integrated. */
  function Earlier(order: seq<Packet>, ids: seq<PacketId>, i: nat): set<PacketId>
    requires i <= |order|
  {
    set k | 0 <= k < i && order[k].packetId in ids :: order[k].packetId
  }

  /** One of the packets changed this path. */
  ghost predicate Taken(input: Results, among: set<PacketId>, f: string) {
    exists id, g :: id in among && id in input && g in input[id].filesChanged && SamePath(f, g)
  }

  /** Some path was changed before, and the first such path is not the empty one. */
  ghost predicate Overlaps(input: Results, among: set<PacketId>, files: seq<string>) {
    exists j :: 0 <= j < |files| && FirstTaken(input, among, files, j) && files[j] != ""
  }

  ghost predicate FirstTaken(input: Results, among: set<PacketId>, files: seq<string>, j: nat)
    requires j < |files|
  {
    Taken(input, among, files[j]) && forall m | 0 <= m < j :: !Taken(input, among, files[m])
  }

  predicate Completed(input: Results, id: PacketId) {
    id in input && input[id].status.COMPLETED?
  }

  /** The result names a commit on a branch. */
  predicate NamesCommit(r: PacketResult) {
    r.worktree.Some? && r.worktree.value.commitSha.Some? && |r.worktree.value.commitSha.value| > 0 && |r.worktree.value.branch| > 0
  }

  /** The worktree the result names was recorded for this repository, packet and branch, and git takes the commit. */
  predicate Replayable(env: Environment, p: Packet, r: PacketResult) {
    && r.worktree.Some? && r.worktree.value.worktreeId in env.worktrees && p.packetId in env.gitAccepts
    && var row := env.worktrees[r.worktree.value.worktreeId];
    row.repositoryId == env.repositoryId && row.packetId == p.packetId && row.branch == r.worktree.value.branch
  }

  /** Nothing stands in the way of a completed result: its dependencies are on main, and nobody changed its paths. */
  ghost predicate Unobstructed(input: Results, order: seq<Packet>, ids: seq<PacketId>, i: nat)
    requires i < |order| && order[i].packetId in input
  {
    && (forall d | d in order[i].dependencies :: d in ids)
    && !Overlaps(input, Earlier(order, ids, i), input[order[i].packetId].filesChanged)
  }

  /** Which packets are integrated, and which final result each packet gets. */
  ghost predicate PacketExplained(env: Environment, input: Results, order: seq<Packet>, ids: seq<PacketId>, results: Results, i: nat)
    requires i < |order|
  {
    var p, id := order[i], order[i].packetId;
    && (id in ids <==> Completed(input, id) && Unobstructed(input, order, ids, i) && NamesCommit(input[id]) && Replayable(env, p, input[id]))
    && id in results
    && (if Completed(input, id) then
          && (results[id].status.COMPLETED? <==> id in ids)
          && (results[id].status.SKIPPED_DEPENDENCY? <==> exists d :: d in p.dependencies && d !in ids)
          && (results[id].status.BLOCKED? <==> Unobstructed(input, order, ids, i) && !NamesCommit(input[id]))
          && (results[id].status.COMPLETED? || results[id].status.SKIPPED_DEPENDENCY? || results[id].status.BLOCKED? || results[id].status.INTEGRATION_CONFLICT?)
          && results[id] == input[id].(status := results[id].status)
        else if id in input then results[id] == input[id]
        else results[id] == PacketResult(id, if |p.dependencies| > 0 then SKIPPED_DEPENDENCY else BLOCKED, None, []))
  }

  lemma {:induction false} OverlapsIff(input: Results, files: seq<string>, integrated: seq<PacketId>, among: set<PacketId>)
    requires forall id :: id in among <==> id in integrated
    ensures OverlapDetected(files, TakenPaths(input, integrated)) <==> Overlaps(input, among, files)
  {
    if files != [] {
      TakenIff(input, integrated, among, files[0]);
      OverlapsIff(input, files[1..], integrated, among);
      hide TakenPaths, Taken;
      if Taken(input, among, files[0]) {
        assert FirstTaken(input, among, files, 0);
        assert forall j | 0 < j < |files| :: !FirstTaken(input, among, files, j);
        NormaliseEqualIff(files[0], "");
      } else {
        OverlapsTail(input, among, files);
      }
    }
  }

  lemma OverlapsTail(input: Results, among: set<PacketId>, files: seq<string>)
    requires files != [] && !Taken(input, among, files[0])
    ensures Overlaps(input, among, files) <==> Overlaps(input, among, files[1..])
  {
    hide Taken;
    if Overlaps(input, among, files) {
      var j :| 0 <= j < |files| && FirstTaken(input, among, files, j) && files[j] != "";
      assert FirstTaken(input, among, files[1..], j - 1);
    }
    if Overlaps(input, among, files[1..]) {
      var j :| 0 <= j < |files[1..]| && FirstTaken(input, among, files[1..], j) && files[1..][j] != "";
      assert FirstTaken(input, among, files, j + 1) by {
        forall m | 0 <= m < j + 1 ensures !Taken(input, among, files[m]) {
          if m > 0 {
            assert files[m] == files[1..][m - 1];
          }
        }
      }
    }
  }

  lemma TakenIff(input: Results, integrated: seq<PacketId>, among: set<PacketId>, f: string)
    requires forall id :: id in among <==> id in integrated
    ensures Normalise(f) in TakenPaths(input, integrated) <==> Taken(input, among, f)
  {
    if Normalise(f) in TakenPaths(input, integrated) {
      var id, g :| id in integrated && id in input && g in input[id].filesChanged && Normalise(g) == Normalise(f);
      NormaliseEqualIff(f, g);
    }
    if Taken(input, among, f) {
      var id, g :| id in among && id in input && g in input[id].filesChanged && SamePath(f, g);
      NormaliseEqualIff(f, g);
    }
  }

  /** Of schema-valid results, any shared path is an overlap. */
  lemma {:induction false} SchemaOverlapsIff(input: Results, among: set<PacketId>, files: seq<string>)
    requires "" !in files
    ensures Overlaps(input, among, files) <==> exists f :: f in files && Taken(input, among, f)
  {
    hide Taken;
    if files != [] {
      assert "" !in files[1..] && files == [files[0]] + files[1..];
      SchemaOverlapsIff(input, among, files[1..]);
      if Taken(input, among, files[0]) {
        assert FirstTaken(input, among, files, 0) && files[0] in files;
      } else {
        OverlapsTail(input, among, files);
      }
    }
  }

  /** The packets integrated before position i are the integrated packets at earlier positions. */
  lemma EarlierIntegrated(env: Environment, input: Results, order: seq<Packet>, i: nat)
    requires i <= |order| && DistinctIds(order)
    ensures forall id :: id in Earlier(order, IntegratedIds(env, input, order, |order|), i) <==> id in IntegratedIds(env, input, order, i)
  {
    hide OutcomeAt;
    var ids := IntegratedIds(env, input, order, |order|);
    forall id ensures id in Earlier(order, ids, i) <==> id in IntegratedIds(env, input, order, i) {
      MembersIntegrated(env, input, order, i, id);
      MembersIntegrated(env, input, order, |order|, id);
    }
  }

  /** A packet that comes before position i is integrated if and only if it was integrated when position i is reached. */
  lemma DependencySettled(env: Environment, input: Results, order: seq<Packet>, i: nat, d: PacketId)
    requires i < |order| && DistinctIds(order) && DependenciesFirst(order) && d in order[i].dependencies
    ensures d in IntegratedIds(env, input, order, |order|) <==> d in IntegratedIds(env, input, order, i)
  {
    var p :| p in order[..i] && p.packetId == d;
    var k :| 0 <= k < i && order[k] == p;
    EarlierIntegrated(env, input, order, i);
    assert d in Earlier(order, IntegratedIds(env, input, order, |order|), i) <==> d in IntegratedIds(env, input, order, |order|);
  }

  /** When a packet is integrated, once the packets before it are settled. */
  ghost predicate Lands(env: Environment, input: Results, p: Packet, before: set<PacketId>) {
    && Completed(input, p.packetId) && (forall d | d in p.dependencies :: d in before)
    && !Overlaps(input, before, input[p.packetId].filesChanged)
    && NamesCommit(input[p.packetId]) && Replayable(env, p, input[p.packetId])
  }

  lemma LandsIff(env: Environment, input: Results, p: Packet, before: seq<PacketId>)
    ensures OutcomeOf(env, input, p, before).Integrated? <==> Lands(env, input, p, set id | id in before)
  {
    if p.packetId in input {
      OverlapsIff(input, input[p.packetId].filesChanged, before, set id | id in before);
    }
    hide OverlapDetected, Overlaps, TakenPaths;
  }

  /** What the branches of the loop body amount to. */
  lemma OutcomeMeans(env: Environment, input: Results, order: seq<Packet>, i: nat)
    requires i < |order| && DistinctIds(order) && DependenciesFirst(order)
    ensures var id, ids, o := order[i].packetId, IntegratedIds(env, input, order, |order|), OutcomeAt(env, input, order, i);
            if !Completed(input, id) then !o.Integrated? && (id in input <==> o.Kept?) && (o.NoResult? <==> id !in input && order[i].dependencies == [])
            else
              && !o.Kept? && !o.NoResult?
              && (o.DependencyMissing? <==> exists d :: d in order[i].dependencies && d !in ids)
              && (o.NoProvenance? <==> Unobstructed(input, order, ids, i) && !NamesCommit(input[id]))
              && (o.Integrated? <==> Unobstructed(input, order, ids, i) && NamesCommit(input[id]) && Replayable(env, order[i], input[id]))
  {
    var id := order[i].packetId;
    if Completed(input, id) {
      EarlierIntegrated(env, input, order, i);
      var ids := IntegratedIds(env, input, order, |order|);
      OverlapsIff(input, input[id].filesChanged, IntegratedIds(env, input, order, i), Earlier(order, ids, i));
      forall d | d in order[i].dependencies ensures d in ids <==> d in IntegratedIds(env, input, order, i) {
        DependencySettled(env, input, order, i, d);
      }
    }
    hide IntegratedIds, OverlapDetected, Overlaps, TakenPaths;
  }

  /** A packet is integrated, and gets its final result, exactly as explained. */
  lemma PacketIsExplained(env: Environment, input: Results, order: seq<Packet>, initial: Books, b: Books, i: nat)
    requires i < |order| && DistinctIds(order) && DependenciesFirst(order) && SettledUpTo(env, input, order, |order|, initial, b)
    ensures PacketExplained(env, input, order, IntegratedIds(env, input, order, |order|), b.results, i)
  {
    OutcomeMeans(env, input, order, i);
    OwnOutcome(env, input, order, i);
    assert SettledAt(env, input, order, i, initial, b);
    hide OutcomeAt, IntegratedIds, Unobstructed, NamesCommit, Replayable, SettledUpTo;
  }

  lemma OwnOutcome(env: Environment, input: Results, order: seq<Packet>, i: nat)
    requires i < |order| && DistinctIds(order)
    ensures order[i].packetId in IntegratedIds(env, input, order, |order|) <==> OutcomeAt(env, input, order, i).Integrated?
  {
    MembersIntegrated(env, input, order, |order|, order[i].packetId);
  }

  // ---------- The records ----------

  /** A result that was completed or missing is settled anew; any other is kept. */
  predicate Resettled(input: Results, id: PacketId) {
    id !in input || input[id].status.COMPLETED?
  }

  /** What is written about a packet. */
  ghost predicate PacketRecorded(input: Results, ids: seq<PacketId>, initial: Books, b: Books, id: PacketId)
    requires id in b.results
  {
    && (if !Resettled(input, id) then SameAt(b.rows, initial.rows, id)
        else id in b.rows && b.rows[id] == if id in ids then COMPLETED else if b.results[id].status.SKIPPED_DEPENDENCY? then SKIPPED_DEPENDENCY else BLOCKED)
    && (if !Resettled(input, id) || id in ids then SameAt(b.saved, initial.saved, id)
        else id in b.saved && b.saved[id] == b.results[id])
  }

  /** Nothing is written about anything else. */
  ghost predicate OthersKept(input: Results, order: seq<Packet>, initial: Books, b: Books) {
    forall id | Untouched(order, |order|, id) :: SameAt(b.results, input, id) && SameAt(b.rows, initial.rows, id) && SameAt(b.saved, initial.saved, id)
  }

  lemma PacketIsRecorded(env: Environment, input: Results, order: seq<Packet>, initial: Books, b: Books, i: nat)
    requires i < |order| && DistinctIds(order) && DependenciesFirst(order) && SettledUpTo(env, input, order, |order|, initial, b)
    ensures order[i].packetId in b.results
    ensures PacketRecorded(input, IntegratedIds(env, input, order, |order|), initial, b, order[i].packetId)
    ensures OthersKept(input, order, initial, b)
  {
    OutcomeMeans(env, input, order, i);
    OwnOutcome(env, input, order, i);
    assert SettledAt(env, input, order, i, initial, b);
    hide OutcomeAt, IntegratedIds, Unobstructed, NamesCommit, Replayable;
  }

  // ---------- The report ----------

  /** Some result came in completed and could not be replayed. */
  predicate NewConflict(input: Results, order: seq<Packet>, results: Results) {
    exists i | 0 <= i < |order| ::
      Completed(input, order[i].packetId) && order[i].packetId in results && results[order[i].packetId].status.INTEGRATION_CONFLICT?
  }

  predicate AllIntegrated(order: seq<Packet>, ids: seq<PacketId>) {
    forall i | 0 <= i < |order| :: order[i].packetId in ids
  }

  /** No result that came in for some other packet is a failure. */
  ghost predicate OthersHarmless(input: Results, order: seq<Packet>) {
    forall id | id in input && Untouched(order, |order|, id) :: input[id].status.COMPLETED? || input[id].status.INTEGRATION_CONFLICT?
  }

  ghost predicate ReportExplained(input: Results, order: seq<Packet>, report: Report) {
    var done := AllIntegrated(order, report.integratedPacketIds) && OthersHarmless(input, order);
    && (report.status.ReportConflict? <==> NewConflict(input, order, report.results))
    && (report.status.ReportCompleted? <==> done)
    && (report.status.ReportPartial? <==> !NewConflict(input, order, report.results) && !done && report.integratedPacketIds != [])
  }

  lemma {:induction false} IntegratedCount(env: Environment, input: Results, order: seq<Packet>, n: nat)
    requires n <= |order|
    ensures |IntegratedIds(env, input, order, n)| <= n
    ensures |IntegratedIds(env, input, order, n)| == n <==> forall i | 0 <= i < n :: OutcomeAt(env, input, order, i).Integrated?
  {
    if n > 0 {
      IntegratedCount(env, input, order, n - 1);
      assert OutcomeAt(env, input, order, n - 1) == OutcomeOf(env, input, order[n - 1], IntegratedIds(env, input, order, n - 1));
      hide OutcomeOf, OutcomeAt;
    }
  }

  lemma ConflictIsNew(env: Environment, input: Results, order: seq<Packet>, initial: Books, b: Books)
    requires DistinctIds(order) && DependenciesFirst(order) && SettledUpTo(env, input, order, |order|, initial, b)
    ensures NewConflict(input, order, b.results) <==> exists i :: 0 <= i < |order| && Conflicting(OutcomeAt(env, input, order, i))
  {
    forall i | 0 <= i < |order|
      ensures SettledAt(env, input, order, i, initial, b)
      ensures Conflicting(OutcomeAt(env, input, order, i)) <==>
              Completed(input, order[i].packetId) && b.results[order[i].packetId].status.INTEGRATION_CONFLICT?
    {
      OutcomeMeans(env, input, order, i);
      hide OutcomeAt, IntegratedIds, Unobstructed, NamesCommit, Replayable;
    }
  }

  lemma FailureIsForeign(env: Environment, input: Results, order: seq<Packet>, initial: Books, b: Books)
    requires DistinctIds(order) && DependenciesFirst(order) && SettledUpTo(env, input, order, |order|, initial, b)
    requires AllIntegrated(order, IntegratedIds(env, input, order, |order|))
    ensures (exists id :: id in b.results && IsFailure(b.results[id].status)) <==> !OthersHarmless(input, order)
  {
    forall i | 0 <= i < |order|
      ensures order[i].packetId in b.results && b.results[order[i].packetId].status.COMPLETED?
    {
      PacketIsExplained(env, input, order, initial, b, i);
    }
    hide IntegratedIds, OutcomeAt;
    if id :| id in b.results && IsFailure(b.results[id].status) {
      assert Untouched(order, |order|, id);
    }
    if !OthersHarmless(input, order) {
      var id :| id in input && Untouched(order, |order|, id) && !input[id].status.COMPLETED? && !input[id].status.INTEGRATION_CONFLICT?;
      assert IsFailure(b.results[id].status);
    }
  }

  /** All packets are integrated exactly when the counts say so, and then nothing conflicts. */
  lemma CountsTell(env: Environment, input: Results, order: seq<Packet>)
    requires DistinctIds(order)
    ensures AllIntegrated(order, IntegratedIds(env, input, order, |order|)) <==> |IntegratedIds(env, input, order, |order|)| == |order|
    ensures AllIntegrated(order, IntegratedIds(env, input, order, |order|)) ==>
              forall i | 0 <= i < |order| :: !Conflicting(OutcomeAt(env, input, order, i))
  {
    IntegratedCount(env, input, order, |order|);
    forall i | 0 <= i < |order|
      ensures order[i].packetId in IntegratedIds(env, input, order, |order|) <==> OutcomeAt(env, input, order, i).Integrated?
    {
      OwnOutcome(env, input, order, i);
    }
    hide IntegratedIds, OutcomeAt;
  }

  lemma ReportIsExplained(env: Environment, input: Results, order: seq<Packet>, initial: Books, b: Books, report: Report, conflict: bool, failure: bool)
    requires DistinctIds(order) && DependenciesFirst(order) && SettledUpTo(env, input, order, |order|, initial, b)
    requires report.results == b.results && report.integratedPacketIds == IntegratedIds(env, input, order, |order|)
    requires conflict <==> exists i :: 0 <= i < |order| && Conflicting(OutcomeAt(env, input, order, i))
    requires failure <==> exists id :: id in b.results && IsFailure(b.results[id].status)
    requires report.status == StatusOf(conflict, |report.integratedPacketIds|, |order|, failure)
    ensures ReportExplained(input, order, report)
  {
    ConflictIsNew(env, input, order, initial, b);
    CountsTell(env, input, order);
    if AllIntegrated(order, report.integratedPacketIds) {
      FailureIsForeign(env, input, order, initial, b);
    }
    hide IntegratedIds, OutcomeAt, SettledUpTo, OthersHarmless, NewConflict, AllIntegrated, Conflicting, IsFailure, DependenciesFirst, DistinctIds;
  }

  ghost predicate AllRecorded(input: Results, order: seq<Packet>, ids: seq<PacketId>, initial: Books, b: Books) {
    && (forall i | 0 <= i < |order| :: order[i].packetId in b.results && PacketRecorded(input, ids, initial, b, order[i].packetId))
    && OthersKept(input, order, initial, b)
  }

  // ---------- Main ----------

  /** Each integrated packet, in the order of the list, adds the commit its result names. */
  ghost predicate CommitsAdded(input: Results, order: seq<Packet>, ids: seq<PacketId>, before: seq<string>, main: seq<string>) {
    && |main| == |before| + |ids| && before <= main
    && (forall k | 0 <= k < |ids| :: ids[k] in input && NamesCommit(input[ids[k]]) && main[|before| + k] == input[ids[k]].worktree.value.commitSha.value)
    && (forall k, m | 0 <= k < m < |ids| :: Precedes(order, ids[k], ids[m]))
  }

  ghost predicate Precedes(order: seq<Packet>, a: PacketId, b: PacketId) {
    exists i, j :: 0 <= i < j < |order| && order[i].packetId == a && order[j].packetId == b
  }

  lemma CommitsAreAdded(env: Environment, input: Results, order: seq<Packet>, before: seq<string>, main: seq<string>)
    requires main == before + Commits(input, IntegratedIds(env, input, order, |order|))
    ensures CommitsAdded(input, order, IntegratedIds(env, input, order, |order|), before, main)
  {
    var ids := IntegratedIds(env, input, order, |order|);
    var at := IntegratedInOrder(env, input, order, |order|);
    forall k | 0 <= k < |ids|
      ensures ids[k] in input && NamesCommit(input[ids[k]]) && main[|before| + k] == input[ids[k]].worktree.value.commitSha.value
    {
      assert OutcomeAt(env, input, order, at[k]).Integrated?;
      assert main[|before| + k] == Commits(input, ids)[k];
    }
    forall k, m | 0 <= k < m < |ids|
      ensures Precedes(order, ids[k], ids[m])
    {
      assert order[at[k]].packetId == ids[k] && order[at[m]].packetId == ids[m];
    }
  }

  /** Everything there is to say about one call of integrate that gets to its loop. */
  lemma Explain(env: Environment, input: Results, order: seq<Packet>, initial: Books, b: Books, report: Report, before: seq<string>, main: seq<string>)
    requires DistinctIds(order) && DependenciesFirst(order) && initial.results == input && b == SettleAll(env, input, order, |order|, initial)
    requires report.results == b.results && report.integratedPacketIds == IntegratedIds(env, input, order, |order|)
    requires report.status == StatusOf(exists i :: 0 <= i < |order| && Conflicting(OutcomeAt(env, input, order, i)),
                                       |report.integratedPacketIds|, |order|,
                                       exists id :: id in report.results && IsFailure(report.results[id].status))
    requires main == before + Commits(input, report.integratedPacketIds)
    ensures SettledUpTo(env, input, order, |order|, initial, b)
    ensures forall i | 0 <= i < |order| :: PacketExplained(env, input, order, report.integratedPacketIds, report.results, i)
    ensures ReportExplained(input, order, report) && AllRecorded(input, order, report.integratedPacketIds, initial, b)
    ensures CommitsAdded(input, order, report.integratedPacketIds, before, main)
  {
    BooksSettled(env, input, order, |order|, initial);
    CommitsAreAdded(env, input, order, before, main);
    ReportIsExplained(env, input, order, initial, b, report, exists i :: 0 <= i < |order| && Conflicting(OutcomeAt(env, input, order, i)),
                      exists id :: id in b.results && IsFailure(b.results[id].status));
    hide SettledUpTo, PacketExplained, PacketRecorded, OthersKept, IntegratedIds, ReportExplained, CommitsAdded, SettleAll, OutcomeAt, Conflicting, IsFailure, StatusOf, Commits;
    forall i | 0 <= i < |order|
      ensures PacketExplained(env, input, order, report.integratedPacketIds, report.results, i)
      ensures order[i].packetId in b.results && PacketRecorded(input, report.integratedPacketIds, initial, b, order[i].packetId)
    {
      PacketIsExplained(env, input, order, initial, b, i);
      PacketIsRecorded(env, input, order, initial, b, i);
    }
    if order == [] {
      NothingRecorded(env, input, initial, b);
    } else {
      PacketIsRecorded(env, input, order, initial, b, 0);
    }
  }

  lemma NothingRecorded(env: Environment, input: Results, initial: Books, b: Books)
    requires SettledUpTo(env, input, [], 0, initial, b)
    ensures OthersKept(input, [], initial, b)
  {
  }
}
