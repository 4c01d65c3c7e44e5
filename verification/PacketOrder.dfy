/** IntegrationService.topologicalOrder: Kahn's algorithm over work packets with a collated ready list. */
module PacketOrder {
  import opened Digraph
  import opened FiniteSets

  type PacketId = string

  datatype Packet = Packet(packetId: PacketId, dependencies: seq<PacketId>)

  /**
   * The sort key localeCompare gives an identifier; distinct identifiers may share one. On any finite list of identifiers
   * a locale's order is some integer key, and only finite lists are ever sorted.
   */
  type Collation = PacketId -> int

  datatype OrderResult =
    | Ordered(packets: seq<Packet>)
    | MissingDependency(dependency: PacketId)
    | DependencyCycle

  function Ids(packets: seq<Packet>): set<PacketId> {
    set p | p in packets :: p.packetId
  }

  ghost predicate DistinctIds(packets: seq<Packet>) {
    forall i, j | 0 <= i < j < |packets| :: packets[i].packetId != packets[j].packetId
  }

  ghost predicate DependenciesPresent(packets: seq<Packet>) {
    forall p, d | p in packets && d in p.dependencies :: d in Ids(packets)
  }

  /** Entry j of packet i names no packet of the list, and every entry listed before it does. */
  ghost predicate FirstMissing(packets: seq<Packet>, i: int, j: int) {
    0 <= i < |packets| && 0 <= j < |packets[i].dependencies|
    && packets[i].dependencies[j] !in Ids(packets)
    && (forall p, d | p in packets[..i] && d in p.dependencies :: d in Ids(packets))
    && (forall d | d in packets[i].dependencies[..j] :: d in Ids(packets))
  }

  /** The dependency graph of packets with distinct ids. */
  function GraphOf(packets: seq<Packet>): Graph
    requires DistinctIds(packets)
  {
    map p | p in packets :: p.packetId := Elements(p.dependencies)
  }

  lemma GraphKeys(packets: seq<Packet>)
    requires DistinctIds(packets)
    ensures GraphOf(packets).Keys == Ids(packets)
  {
  }

  // ---------- What an order has to be ----------

  ghost predicate Permutation(a: seq<Packet>, b: seq<Packet>) {
    multiset(a) == multiset(b)
  }

  /** Every dependency of an entry stands before it. */
  ghost predicate DependenciesFirst(order: seq<Packet>) {
    forall i, d | 0 <= i < |order| && d in order[i].dependencies :: d in Ids(order[..i])
  }

  ghost predicate TopologicalOrderOf(packets: seq<Packet>, order: seq<Packet>) {
    Permutation(packets, order) && DependenciesFirst(order)
  }

  /** Nothing that could have run at position k collates before what did. */
  ghost predicate LeastFirst(packets: seq<Packet>, collate: Collation, order: seq<Packet>) {
    forall k, p | 0 <= k < |order| && p in packets && Runnable(p, order[..k]) :: collate(order[k].packetId) <= collate(p.packetId)
  }

  ghost predicate Runnable(p: Packet, done: seq<Packet>) {
    p !in done && Elements(p.dependencies) <= Ids(done)
  }

  /** Lexicographic comparison of two equally long orders by collation key. */
  ghost predicate LexLessOrEqual(collate: Collation, a: seq<Packet>, b: seq<Packet>) {
    a == b ||
    exists k :: FirstDifference(a, b, k) && collate(a[k].packetId) < collate(b[k].packetId)
  }

  ghost predicate FirstDifference(a: seq<Packet>, b: seq<Packet>, k: int) {
    0 <= k < |a| && k < |b| && a[..k] == b[..k] && a[k] != b[k]
  }

  /** No two distinct identifiers of the set are collation-equal. */
  ghost predicate Separates(collate: Collation, ids: set<PacketId>) {
    forall a, b | a in ids && b in ids && collate(a) == collate(b) :: a == b
  }

  lemma DifferenceExists(a: seq<Packet>, b: seq<Packet>)
    requires |a| == |b| && a != b
    ensures exists k :: FirstDifference(a, b, k)
  {
    var k := 0;
    while k < |a| && a[k] == b[k]
      invariant k <= |a| && a[..k] == b[..k]
    {
      assert a[..k + 1] == a[..k] + [a[k]] && b[..k + 1] == b[..k] + [b[k]];
      k := k + 1;
    }
    if k == |a| {
      assert false;
    }
    assert FirstDifference(a, b, k);
  }

  lemma PermutationMembers(a: seq<Packet>, b: seq<Packet>)
    requires Permutation(a, b)
    ensures |a| == |b| && (forall p :: p in a <==> p in b) && Ids(a) == Ids(b)
  {
    assert |multiset(a)| == |a| && |multiset(b)| == |b|;
    assert forall p :: p in a <==> p in multiset(a);
    assert forall p :: p in b <==> p in multiset(b);
  }

  lemma PermutationDistinct(a: seq<Packet>, b: seq<Packet>)
    requires Permutation(a, b) && DistinctIds(a)
    ensures DistinctIds(b)
  {
    PermutationMembers(a, b);
    forall i, j | 0 <= i < j < |b| ensures b[i].packetId != b[j].packetId {
      if b[i].packetId == b[j].packetId {
        assert b[i] in a && b[j] in a;
        assert b[i] == b[j];
        assert b == b[..j] + [b[j]] + b[j + 1..];
        assert multiset(b)[b[j]] >= multiset(b[..j])[b[j]] + 1;
        assert b[i] in b[..j];
        Once(a, b[j]);
      }
    }
  }

  lemma Once(a: seq<Packet>, p: Packet)
    requires DistinctIds(a) && p in a
    ensures multiset(a)[p] == 1
  {
    var i :| 0 <= i < |a| && a[i] == p;
    assert a == a[..i] + [p] + a[i + 1..];
    assert p !in a[..i] && p !in a[i + 1..];
  }

  /** What another topological order runs at the first difference could have run here too. */
  lemma RunnableAtDifference(packets: seq<Packet>, order: seq<Packet>, other: seq<Packet>, k: nat)
    requires DistinctIds(other) && DependenciesFirst(other) && FirstDifference(order, other, k)
    ensures Runnable(other[k], order[..k])
  {
    assert order[..k] == other[..k];
    forall i | 0 <= i < k ensures other[..k][i] != other[k] {
      assert other[i].packetId != other[k].packetId;
    }
    forall d | d in Elements(other[k].dependencies) ensures d in Ids(other[..k]) {
    }
  }

  /** The greedy order is below every topological order of the same packets. */
  lemma GreedyOrderIsLeast(packets: seq<Packet>, collate: Collation, order: seq<Packet>, other: seq<Packet>)
    requires DistinctIds(packets) && Separates(collate, Ids(packets))
    requires TopologicalOrderOf(packets, order) && LeastFirst(packets, collate, order)
    requires TopologicalOrderOf(packets, other)
    ensures LexLessOrEqual(collate, order, other)
  {
    PermutationMembers(packets, order);
    PermutationMembers(packets, other);
    PermutationDistinct(packets, other);
    if order != other {
      DifferenceExists(order, other);
      var k :| FirstDifference(order, other, k);
      RunnableAtDifference(packets, order, other, k);
      assert order[k] in packets && other[k] in packets;
      assert collate(order[k].packetId) <= collate(other[k].packetId);
      SameIdSamePacket(packets, order[k], other[k]);
    }
  }

  lemma SameIdSamePacket(packets: seq<Packet>, p: Packet, q: Packet)
    requires DistinctIds(packets) && p in packets && q in packets
    ensures p.packetId == q.packetId ==> p == q
    ensures p.packetId in Ids(packets) && q.packetId in Ids(packets)
  {
  }

  lemma FirstDifferenceUnique(a: seq<Packet>, b: seq<Packet>, k: int, m: int)
    requires FirstDifference(a, b, k) && FirstDifference(b, a, m)
    ensures k == m
  {
    if m < k {
      AgreeBefore(a, b, k, m);
    } else if k < m {
      AgreeBefore(b, a, m, k);
    }
  }

  lemma AgreeBefore(a: seq<Packet>, b: seq<Packet>, k: int, m: int)
    requires FirstDifference(a, b, k) && 0 <= m < k
    ensures a[m] == b[m]
  {
    assert a[m] == a[..k][m] && b[m] == b[..k][m];
  }

  lemma LexAntisymmetric(collate: Collation, a: seq<Packet>, b: seq<Packet>)
    requires LexLessOrEqual(collate, a, b) && LexLessOrEqual(collate, b, a)
    ensures a == b
  {
    if a != b {
      var k :| FirstDifference(a, b, k) && collate(a[k].packetId) < collate(b[k].packetId);
      var m :| FirstDifference(b, a, m) && collate(b[m].packetId) < collate(a[m].packetId);
      FirstDifferenceUnique(a, b, k, m);
    }
  }

  /** Listing the same packets in another order yields the same result. */
  lemma OrderIgnoresInputOrder(packets: seq<Packet>, shuffled: seq<Packet>, collate: Collation,
                               order: seq<Packet>, order': seq<Packet>)
    requires DistinctIds(packets) && Separates(collate, Ids(packets)) && Permutation(packets, shuffled)
    requires TopologicalOrderOf(packets, order) && LeastFirst(packets, collate, order)
    requires TopologicalOrderOf(shuffled, order') && LeastFirst(shuffled, collate, order')
    ensures order == order'
  {
    PermutationMembers(packets, shuffled);
    PermutationDistinct(packets, shuffled);
    GreedyOrderIsLeast(packets, collate, order, order');
    GreedyOrderIsLeast(shuffled, collate, order', order);
    LexAntisymmetric(collate, order, order');
  }

  /** At most one order meets the specification of a packet list. */
  ghost predicate OrderDetermined(collate: Collation, packets: seq<Packet>) {
    forall a, b | TopologicalOrderOf(packets, a) && LeastFirst(packets, collate, a)
                  && TopologicalOrderOf(packets, b) && LeastFirst(packets, collate, b) :: a == b
  }

  /**
   * The ready list determines the order of every graph over a set of identifiers exactly when the
   * collation tells those identifiers apart; with a tie, two independent packets may come out either way.
   */
  lemma OrderDeterminedIffCollationSeparates(collate: Collation, ids: set<PacketId>)
    ensures Separates(collate, ids) <==>
            forall packets | DistinctIds(packets) && Ids(packets) <= ids :: OrderDetermined(collate, packets)
  {
    if Separates(collate, ids) {
      forall packets, a, b | DistinctIds(packets) && Ids(packets) <= ids
                             && TopologicalOrderOf(packets, a) && LeastFirst(packets, collate, a)
                             && TopologicalOrderOf(packets, b) && LeastFirst(packets, collate, b)
        ensures a == b
      {
        OrderIgnoresInputOrder(packets, packets, collate, a, b);
      }
    } else {
      var x, y :| x in ids && y in ids && collate(x) == collate(y) && x != y;
      TieIsUndetermined(collate, x, y);
    }
  }

  /** Two independent packets that collate equal may come out either way. */
  lemma TieIsUndetermined(collate: Collation, x: PacketId, y: PacketId)
    requires collate(x) == collate(y) && x != y
    ensures var packets := [Packet(x, []), Packet(y, [])];
            DistinctIds(packets) && Ids(packets) == {x, y} && !OrderDetermined(collate, packets)
  {
    var p, q := Packet(x, []), Packet(y, []);
    var packets, reversed := [p, q], [q, p];
    assert Ids(packets) == {x, y};
    assert multiset(packets) == multiset(reversed);
    PairInOrder(collate, packets, packets);
    PairInOrder(collate, packets, reversed);
    assert packets[0] != reversed[0];
  }

  lemma PairInOrder(collate: Collation, packets: seq<Packet>, order: seq<Packet>)
    requires |packets| == 2 && Permutation(packets, order) && collate(packets[0].packetId) == collate(packets[1].packetId)
    requires forall p | p in packets :: p.dependencies == []
    ensures TopologicalOrderOf(packets, order) && LeastFirst(packets, collate, order)
  {
    PermutationMembers(packets, order);
    assert forall i | 0 <= i < |order| :: order[i] in packets && order[i].dependencies == [];
    forall k, p | 0 <= k < |order| && p in packets && Runnable(p, order[..k])
      ensures collate(order[k].packetId) <= collate(p.packetId)
    {
      assert order[k] in packets;
    }
  }

  // ---------- The algorithm ----------

  ghost predicate Sorted(collate: Collation, s: seq<Packet>) {
    forall i, j | 0 <= i < j < |s| :: collate(s[i].packetId) <= collate(s[j].packetId)
  }

  /** A stable sort by collation key, as Array.prototype.sort is. */
  function SortByCollation(collate: Collation, s: seq<Packet>): seq<Packet> {
    if s == [] then [] else InsertBeforeEqual(collate, s[0], SortByCollation(collate, s[1..]))
  }

  function InsertBeforeEqual(collate: Collation, p: Packet, s: seq<Packet>): seq<Packet> {
    if s == [] || collate(p.packetId) <= collate(s[0].packetId) then [p] + s
    else [s[0]] + InsertBeforeEqual(collate, p, s[1..])
  }

  lemma {:induction false} InsertKeepsSorted(collate: Collation, p: Packet, s: seq<Packet>)
    requires Sorted(collate, s)
    ensures var r := InsertBeforeEqual(collate, p, s); Sorted(collate, r) && multiset(r) == multiset{p} + multiset(s)
  {
    if s != [] && collate(p.packetId) > collate(s[0].packetId) {
      TailSorted(collate, s);
      InsertKeepsSorted(collate, p, s[1..]);
      var tail := InsertBeforeEqual(collate, p, s[1..]);
      hide Sorted;
      assert s == [s[0]] + s[1..];
      forall q | q in tail
        ensures collate(s[0].packetId) <= collate(q.packetId)
      {
        assert q in multiset(tail);
      }
      PrependSorted(collate, s[0], tail);
    } else if s != [] {
      TailSorted(collate, s);
      PrependSorted(collate, p, s);
    }
  }

  lemma TailSorted(collate: Collation, s: seq<Packet>)
    requires s != [] && Sorted(collate, s)
    ensures Sorted(collate, s[1..])
    ensures forall q | q in s :: collate(s[0].packetId) <= collate(q.packetId)
  {
  }

  lemma PrependSorted(collate: Collation, p: Packet, s: seq<Packet>)
    requires Sorted(collate, s) && forall q | q in s :: collate(p.packetId) <= collate(q.packetId)
    ensures Sorted(collate, [p] + s)
  {
  }

  lemma {:induction false} SortSorts(collate: Collation, s: seq<Packet>)
    ensures Sorted(collate, SortByCollation(collate, s)) && multiset(SortByCollation(collate, s)) == multiset(s)
  {
    if s != [] {
      hide Sorted, InsertBeforeEqual;
      SortSorts(collate, s[1..]);
      InsertKeepsSorted(collate, s[0], SortByCollation(collate, s[1..]));
      assert s == [s[0]] + s[1..];
    }
  }

  /** What the loop knows between two rounds. */
  ghost predicate Progress(packets: seq<Packet>, collate: Collation, incoming: map<PacketId, set<PacketId>>,
                           output: seq<Packet>, ready: seq<Packet>)
  {
    && DistinctIds(output + ready)
    && (forall p | p in output :: p in packets)
    && incoming.Keys == Ids(packets)
    && (forall p | p in packets :: incoming[p.packetId] == Elements(p.dependencies) - Ids(output))
    && (forall p :: p in ready <==> p in packets && Runnable(p, output))
    && Sorted(collate, ready)
    && DependenciesFirst(output)
    && LeastFirst(packets, collate, output)
  }

  lemma KeepsProgress(packets: seq<Packet>, collate: Collation, incoming: map<PacketId, set<PacketId>>,
                      output: seq<Packet>, ready: seq<Packet>)
    requires DistinctIds(output + ready) && Sorted(collate, ready)
    requires forall p | p in output :: p in packets
    requires incoming.Keys == Ids(packets) && forall p | p in packets :: incoming[p.packetId] == Elements(p.dependencies) - Ids(output)
    requires forall p :: p in ready <==> p in packets && Runnable(p, output)
    requires DependenciesFirst(output) && LeastFirst(packets, collate, output)
    ensures Progress(packets, collate, incoming, output, ready)
  {
  }

  method TopologicalOrder(packets: seq<Packet>, collate: Collation) returns (r: OrderResult)
    requires DistinctIds(packets)
    ensures r.MissingDependency? <==> !DependenciesPresent(packets)
    ensures r.MissingDependency? ==> exists i, j :: FirstMissing(packets, i, j) && r.dependency == packets[i].dependencies[j]
    ensures r.DependencyCycle? <==> DependenciesPresent(packets) && Cyclic(GraphOf(packets))
    ensures r.Ordered? ==> TopologicalOrderOf(packets, r.packets) && LeastFirst(packets, collate, r.packets)
  {
    var missing := FindMissing(packets);
    if missing != [] {
      return MissingDependency(missing[0]);
    }
    r := OrderPresent(packets, collate);
  }

  /** The search itself, once every dependency is known to be listed. */
  method OrderPresent(packets: seq<Packet>, collate: Collation) returns (r: OrderResult)
    requires DistinctIds(packets) && DependenciesPresent(packets)
    ensures !r.MissingDependency?
    ensures r.DependencyCycle? <==> Cyclic(GraphOf(packets))
    ensures r.Ordered? ==> TopologicalOrderOf(packets, r.packets) && LeastFirst(packets, collate, r.packets)
  {
    hide Progress, TopologicalOrderOf, LeastFirst, DistinctIds, Cyclic;
    var output: seq<Packet> := [];
    var incoming, ready := Begin(packets, collate);
    while |ready| > 0
      invariant Progress(packets, collate, incoming, output, ready)
      decreases |packets| - |output|
    {
      var packet := ready[0];
      incoming, ready := Round(packets, collate, incoming, output, ready);
      output := output + [packet];
    }
    Exhausted(packets, collate, incoming, output, ready);
    return if |output| == |packets| then Ordered(output) else DependencyCycle;
  }

  /** The dependency sets and the sorted ready list before the first round. */
  method Begin(packets: seq<Packet>, collate: Collation) returns (incoming: map<PacketId, set<PacketId>>, ready: seq<Packet>)
    requires DistinctIds(packets)
    ensures Progress(packets, collate, incoming, [], ready)
  {
    incoming := GraphOf(packets);
    GraphKeys(packets);
    var unsorted := InitiallyReady(packets, incoming);
    ready := SortByCollation(collate, unsorted);
    SortSorts(collate, unsorted);
    hide Progress, SortByCollation, GraphOf, Sorted;
    StartsInProgress(packets, collate, incoming, unsorted, ready);
  }

  /** One round: take the least ready packet, unlock what waited for it, and sort the ready list again. */
  method Round(packets: seq<Packet>, collate: Collation, incoming: map<PacketId, set<PacketId>>, output: seq<Packet>, ready: seq<Packet>)
    returns (incoming': map<PacketId, set<PacketId>>, ready': seq<Packet>)
    requires DistinctIds(packets) && ready != [] && Progress(packets, collate, incoming, output, ready)
    ensures Progress(packets, collate, incoming', output + [ready[0]], ready') && |output| < |packets|
  {
    hide Progress, LeastFirst, DependenciesFirst, DistinctIds, Runnable, Sorted, SortByCollation;
    TakingLeast(packets, collate, incoming, output, ready);
    OutputFits(packets, output + [ready[0]]);
    var unsorted;
    incoming', unsorted := Unlock(packets, ready[0], incoming, output, ready[1..]);
    ready' := SortByCollation(collate, unsorted);
    SortSorts(collate, unsorted);
    SortedReady(output + [ready[0]], unsorted, ready');
    KeepsProgress(packets, collate, incoming', output + [ready[0]], ready');
  }

  /** Strike the taken packet from every dependency set and queue what became free. */
  method Unlock(packets: seq<Packet>, packet: Packet, incoming: map<PacketId, set<PacketId>>,
                output: seq<Packet>, rest: seq<Packet>)
    returns (incoming': map<PacketId, set<PacketId>>, ready: seq<Packet>)
    requires DistinctIds(packets) && packet in packets
    requires DistinctIds(output + [packet] + rest)
    requires forall p | p in output :: p in packets
    requires incoming.Keys == Ids(packets)
    requires forall p | p in packets :: incoming[p.packetId] == Elements(p.dependencies) - Ids(output)
    requires forall p | p in rest :: p in packets && Runnable(p, output + [packet])
    requires forall p | p in packets && Runnable(p, output) && p != packet :: p in rest
    ensures incoming'.Keys == Ids(packets)
    ensures forall p | p in packets :: incoming'[p.packetId] == Elements(p.dependencies) - Ids(output + [packet])
    ensures DistinctIds(output + [packet] + ready)
    ensures forall p :: p in ready <==> p in packets && Runnable(p, output + [packet])
  {
    hide DistinctIds, Runnable;
    incoming', ready := incoming, rest;
    ghost var grown := output + [packet];
    IdsGrow(output, packet);
    for i := 0 to |packets|
      invariant incoming'.Keys == Ids(packets)
      invariant forall p | p in packets[..i] :: incoming'[p.packetId] == Elements(p.dependencies) - Ids(grown)
      invariant forall p | p in packets[i..] :: incoming'[p.packetId] == Elements(p.dependencies) - Ids(output)
      invariant DistinctIds(grown + ready)
      invariant forall p :: p in ready <==> p in rest || (p in packets[..i] && Runnable(p, grown))
    {
      var candidate := packets[i];
      Split(packets, i);
      var deps := incoming'[candidate.packetId] - {packet.packetId};
      assert deps == Elements(candidate.dependencies) - Ids(grown);
      assert deps == {} <==> Elements(candidate.dependencies) <= Ids(grown);
      FreeIffRunnable(candidate, grown, deps);
      incoming' := incoming'[candidate.packetId := deps];
      if deps == {} && candidate !in output + [packet] && candidate !in ready {
        AppendDistinct(packets, grown, ready, candidate);
        ready := ready + [candidate];
      }
    }
    assert packets[..|packets|] == packets;
  }

  lemma FreeIffRunnable(candidate: Packet, grown: seq<Packet>, deps: set<PacketId>)
    requires deps == Elements(candidate.dependencies) - Ids(grown)
    ensures Runnable(candidate, grown) <==> deps == {} && candidate !in grown
  {
    if deps == {} {
      forall d | d in Elements(candidate.dependencies)
        ensures d in Ids(grown)
      {
        assert d !in deps;
      }
    }
  }

  lemma Split(packets: seq<Packet>, i: nat)
    requires DistinctIds(packets) && i < |packets|
    ensures forall p :: p in packets[..i + 1] <==> p in packets[..i] || p == packets[i]
    ensures forall p | p in packets[..i] || p in packets[i + 1..] :: p.packetId != packets[i].packetId
    ensures forall p | p in packets[i + 1..] :: p in packets[i..]
    ensures packets[i] in packets[i..] && packets[i] in packets && packets[i].packetId in Ids(packets)
  {
    assert packets[..i + 1] == packets[..i] + [packets[i]];
    assert packets[i..] == [packets[i]] + packets[i + 1..];
  }

  lemma IdsGrow(s: seq<Packet>, p: Packet)
    ensures Ids(s + [p]) == Ids(s) + {p.packetId}
  {
    forall id ensures id in Ids(s + [p]) <==> id in Ids(s) + {p.packetId} {
      assert p in s + [p];
      if id in Ids(s) {
        var q :| q in s && q.packetId == id;
        assert q in s + [p];
      }
    }
  }

  /** The first dependency, in listing order, that no packet of the list provides. */
  method FindMissing(packets: seq<Packet>) returns (missing: seq<PacketId>)
    ensures missing == [] <==> DependenciesPresent(packets)
    ensures missing != [] ==> exists i, j :: FirstMissing(packets, i, j) && missing[0] == packets[i].dependencies[j]
  {
    var byId := Ids(packets);
    for i := 0 to |packets|
      invariant forall p, d | p in packets[..i] && d in p.dependencies :: d in byId
    {
      for j := 0 to |packets[i].dependencies|
        invariant forall d | d in packets[i].dependencies[..j] :: d in byId
      {
        if packets[i].dependencies[j] !in byId {
          assert FirstMissing(packets, i, j);
          return [packets[i].dependencies[j]];
        }
      }
      assert packets[i].dependencies[..|packets[i].dependencies|] == packets[i].dependencies;
    }
    assert packets[..|packets|] == packets;
    return [];
  }

  method InitiallyReady(packets: seq<Packet>, incoming: map<PacketId, set<PacketId>>) returns (ready: seq<Packet>)
    requires DistinctIds(packets) && incoming.Keys == Ids(packets)
    ensures DistinctIds(ready)
    ensures forall p :: p in ready <==> p in packets && incoming[p.packetId] == {}
  {
    ready := [];
    for i := 0 to |packets|
      invariant DistinctIds(ready)
      invariant forall p :: p in ready <==> p in packets[..i] && incoming[p.packetId] == {}
    {
      if incoming[packets[i].packetId] == {} {
        ready := ready + [packets[i]];
      }
      assert packets[..i + 1] == packets[..i] + [packets[i]];
    }
    assert packets[..|packets|] == packets;
  }

  lemma StartsInProgress(packets: seq<Packet>, collate: Collation, incoming: map<PacketId, set<PacketId>>,
                         unsorted: seq<Packet>, ready: seq<Packet>)
    requires DistinctIds(packets) && Sorted(collate, ready)
    requires incoming == GraphOf(packets)
    requires multiset(unsorted) == multiset(ready) && DistinctIds(unsorted)
    requires forall p :: p in unsorted <==> p in packets && incoming[p.packetId] == {}
    ensures Progress(packets, collate, incoming, [], ready)
  {
    PermutationDistinct(unsorted, ready);
    PermutationMembers(unsorted, ready);
    NothingPlacedYet(packets, collate);
    GraphKeys(packets);
    hide DependenciesFirst, LeastFirst, Permutation, Sorted, GraphOf, DistinctIds;
    assert [] + ready == ready;
    assert Ids([]) == {};
    forall p | p in packets
      ensures incoming[p.packetId] == Elements(p.dependencies) - {} && (incoming[p.packetId] == {} <==> Runnable(p, []))
    {
      GraphAt(packets, p);
      assert Elements(p.dependencies) == {} <==> Elements(p.dependencies) <= {};
    }
  }

  lemma GraphAt(packets: seq<Packet>, p: Packet)
    requires DistinctIds(packets) && p in packets
    ensures p.packetId in GraphOf(packets) && GraphOf(packets)[p.packetId] == Elements(p.dependencies)
  {
    assert p.packetId in GraphOf(packets);
  }

  lemma NothingPlacedYet(packets: seq<Packet>, collate: Collation)
    ensures DependenciesFirst([]) && LeastFirst(packets, collate, [])
  {
  }

  lemma GrownPrefix(output: seq<Packet>, p: Packet, k: nat)
    requires k <= |output|
    ensures (output + [p])[..k] == output[..k]
  {
  }

  lemma TakingLeast(packets: seq<Packet>, collate: Collation, incoming: map<PacketId, set<PacketId>>,
                    output: seq<Packet>, ready: seq<Packet>)
    requires DistinctIds(packets) && ready != [] && Progress(packets, collate, incoming, output, ready)
    ensures DistinctIds(output + [ready[0]] + ready[1..]) && DistinctIds(output + [ready[0]])
    ensures DependenciesFirst(output + [ready[0]]) && LeastFirst(packets, collate, output + [ready[0]])
    ensures ready[0] in packets && incoming.Keys == Ids(packets)
    ensures forall p | p in output + [ready[0]] :: p in packets
    ensures forall p | p in packets :: incoming[p.packetId] == Elements(p.dependencies) - Ids(output)
    ensures forall p | p in ready[1..] :: p in packets && Runnable(p, output + [ready[0]])
    ensures forall p | p in packets && Runnable(p, output) && p != ready[0] :: p in ready[1..]
  {
    var grown := output + [ready[0]];
    assert grown + ready[1..] == output + ready;
    assert forall i | 0 <= i < |grown| :: grown[i] == (output + ready)[i];
    IdsGrow(output, ready[0]);
    assert ready[0] in ready;
    assert ready == [ready[0]] + ready[1..];
    forall p | p in ready[1..]
      ensures p in packets && Runnable(p, grown)
    {
      RestRunnable(output, ready, p);
    }
    LeastGrows(packets, collate, output, ready[0]);
    DependenciesGrow(output, ready[0]);
    hide LeastFirst, DependenciesFirst;
  }

  lemma RestRunnable(output: seq<Packet>, ready: seq<Packet>, p: Packet)
    requires ready != [] && DistinctIds(output + [ready[0]] + ready[1..]) && p in ready[1..]
    requires forall q | q in ready :: Runnable(q, output)
    ensures p in ready && Runnable(p, output + [ready[0]])
  {
    var grown := output + [ready[0]];
    var k :| 0 <= k < |ready[1..]| && ready[1..][k] == p;
    NotIn(grown, ready[1..], k);
    IdsGrow(output, ready[0]);
    assert p in ready;
  }

  lemma NotIn(a: seq<Packet>, b: seq<Packet>, k: nat)
    requires DistinctIds(a + b) && k < |b|
    ensures b[k] !in a
  {
    assert (a + b)[|a| + k] == b[k];
    forall i | 0 <= i < |a| ensures a[i] != b[k] {
      assert (a + b)[i].packetId != (a + b)[|a| + k].packetId;
    }
  }

  lemma LeastGrows(packets: seq<Packet>, collate: Collation, output: seq<Packet>, p: Packet)
    requires LeastFirst(packets, collate, output)
    requires forall q | q in packets && Runnable(q, output) :: collate(p.packetId) <= collate(q.packetId)
    ensures LeastFirst(packets, collate, output + [p])
  {
    var grown := output + [p];
    forall k, q | 0 <= k < |grown| && q in packets && Runnable(q, grown[..k])
      ensures collate(grown[k].packetId) <= collate(q.packetId)
    {
      GrownPrefix(output, p, k);
      assert output[..|output|] == output;
    }
  }

  lemma DependenciesGrow(output: seq<Packet>, p: Packet)
    requires DependenciesFirst(output) && Elements(p.dependencies) <= Ids(output)
    ensures DependenciesFirst(output + [p])
  {
    var grown := output + [p];
    forall i, d | 0 <= i < |grown| && d in grown[i].dependencies ensures d in Ids(grown[..i]) {
      GrownPrefix(output, p, i);
      if i == |output| {
        assert output[..i] == output;
        assert d in Elements(p.dependencies);
      }
    }
  }

  lemma AppendDistinct(packets: seq<Packet>, output: seq<Packet>, ready: seq<Packet>, candidate: Packet)
    requires DistinctIds(packets) && DistinctIds(output + ready)
    requires forall p | p in output || p in ready :: p in packets
    requires candidate in packets && candidate !in output && candidate !in ready
    ensures DistinctIds(output + (ready + [candidate]))
  {
    var all := output + (ready + [candidate]);
    assert all == (output + ready) + [candidate];
    forall i, j | 0 <= i < j < |all| ensures all[i].packetId != all[j].packetId {
      if j == |all| - 1 {
        assert all[i] in output + ready;
        assert all[i] in packets && all[i] != candidate;
      }
    }
  }

  lemma SortedReady(output: seq<Packet>, unsorted: seq<Packet>, sorted: seq<Packet>)
    requires DistinctIds(output + unsorted) && multiset(unsorted) == multiset(sorted)
    ensures DistinctIds(output + sorted) && forall p :: p in sorted <==> p in unsorted
  {
    assert multiset(output + unsorted) == multiset(output + sorted);
    PermutationDistinct(output + unsorted, output + sorted);
    PermutationMembers(unsorted, sorted);
  }

  lemma IdSequence(s: seq<Packet>)
    requires DistinctIds(s)
    ensures |Ids(s)| == |s|
  {
    var ids := seq(|s|, i requires 0 <= i < |s| => s[i].packetId);
    ElementsBound(ids);
    forall id ensures id in Elements(ids) <==> id in Ids(s) {
      if id in Ids(s) {
        var p :| p in s && p.packetId == id;
        var i :| 0 <= i < |s| && s[i] == p;
        assert ids[i] == id;
      }
    }
    assert Elements(ids) == Ids(s);
  }

  lemma OutputFits(packets: seq<Packet>, output: seq<Packet>)
    requires DistinctIds(packets) && DistinctIds(output) && forall p | p in output :: p in packets
    ensures |output| <= |packets|
    ensures |output| == |packets| ==> Ids(output) == Ids(packets)
  {
    IdSequence(packets);
    IdSequence(output);
    SubsetSize(Ids(output), Ids(packets));
  }

  lemma Exhausted(packets: seq<Packet>, collate: Collation, incoming: map<PacketId, set<PacketId>>,
                  output: seq<Packet>, ready: seq<Packet>)
    requires DistinctIds(packets) && DependenciesPresent(packets)
    requires ready == [] && Progress(packets, collate, incoming, output, ready)
    ensures |output| == |packets| ==> TopologicalOrderOf(packets, output) && LeastFirst(packets, collate, output) && !Cyclic(GraphOf(packets))
    ensures |output| != |packets| ==> Cyclic(GraphOf(packets))
  {
    assert output + ready == output;
    if |output| == |packets| {
      CompleteOutput(packets, output);
      TopologicalIsAcyclic(packets, output);
    } else {
      IncompleteHasCycle(packets, output);
    }
  }

  lemma CompleteOutput(packets: seq<Packet>, output: seq<Packet>)
    requires DistinctIds(packets) && DistinctIds(output) && forall p | p in output :: p in packets
    requires |output| == |packets|
    ensures Permutation(packets, output)
  {
    OutputFits(packets, output);
    forall p ensures multiset(packets)[p] == multiset(output)[p] {
      if p in packets {
        assert p.packetId in Ids(output);
        var q :| q in output && q.packetId == p.packetId;
        assert q == p;
        Once(packets, p);
        Once(output, p);
      } else {
        assert p !in output;
      }
    }
  }

  lemma TopologicalIsAcyclic(packets: seq<Packet>, order: seq<Packet>)
    requires DistinctIds(packets) && TopologicalOrderOf(packets, order)
    ensures !Cyclic(GraphOf(packets))
  {
    PermutationMembers(packets, order);
    PermutationDistinct(packets, order);
    var rank, g := Positions(order), GraphOf(packets);
    forall v | v in g
      ensures v in rank
    {
      var p :| p in order && p.packetId == v;
      var i :| 0 <= i < |order| && order[i] == p;
      PositionOf(order, i);
    }
    forall v, d | v in g && d in g[v]
      ensures d in rank && rank[d] < rank[v]
    {
      var p :| p in packets && p.packetId == v;
      var i :| 0 <= i < |order| && order[i] == p;
      assert d in p.dependencies;
      DependencyPosition(order, i, d);
    }
    hide Positions, Permutation, DependenciesFirst;
    RankedIsAcyclic(g, rank);
  }

  /** Where each packet of an order stands. */
  ghost function Positions(order: seq<Packet>): map<PacketId, int>
    requires DistinctIds(order)
  {
    map i | 0 <= i < |order| :: order[i].packetId := i
  }

  lemma PositionOf(order: seq<Packet>, i: nat)
    requires DistinctIds(order) && i < |order|
    ensures order[i].packetId in Positions(order) && Positions(order)[order[i].packetId] == i
  {
    assert order[i].packetId in Positions(order);
  }

  lemma DependencyPosition(order: seq<Packet>, i: nat, d: PacketId)
    requires DistinctIds(order) && DependenciesFirst(order) && i < |order| && d in order[i].dependencies
    ensures d in Positions(order) && order[i].packetId in Positions(order) && Positions(order)[d] < Positions(order)[order[i].packetId]
  {
    assert d in Ids(order[..i]);
    var q :| q in order[..i] && q.packetId == d;
    var j :| 0 <= j < i && order[j] == q;
    PositionOf(order, i);
    PositionOf(order, j);
  }

  /** With no packet runnable, the packets left over wait for each other. */
  lemma IncompleteHasCycle(packets: seq<Packet>, output: seq<Packet>)
    requires DistinctIds(packets) && DependenciesPresent(packets)
    requires DistinctIds(output) && (forall p | p in output :: p in packets) && |output| != |packets|
    requires forall p | p in packets :: !Runnable(p, output)
    ensures Cyclic(GraphOf(packets))
  {
    var g := GraphOf(packets);
    var stuck := Ids(packets) - Ids(output);
    if stuck == {} {
      forall id | id in Ids(packets) ensures id in Ids(output) {
        assert id !in stuck;
      }
      SubsetSize(Ids(packets), Ids(output));
      IdSequence(packets);
      IdSequence(output);
      OutputFits(packets, output);
      assert false;
    }
    forall v | v in stuck ensures v in g && g[v] * stuck != {} {
      var p :| p in packets && p.packetId == v;
      assert p !in output;
      var d :| d in Elements(p.dependencies) && d !in Ids(output);
      assert d in g[v] * stuck;
    }
    StuckSetHasCycle(g, stuck);
  }
}
