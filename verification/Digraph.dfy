/** Finite directed dependency graphs, as both graph algorithms of the controller see them. */
module Digraph {
  import opened FiniteSets

  /** Maps a vertex to the vertices it depends on; a vertex outside the map depends on nothing. */
  type Graph = map<string, set<string>>

  ghost predicate Edge(g: Graph, from: string, to: string) {
    from in g && to in g[from]
  }

  ghost predicate IsWalk(g: Graph, w: seq<string>) {
    forall i | 0 <= i < |w| - 1 :: Edge(g, w[i], w[i + 1])
  }

  ghost predicate IsCycle(g: Graph, w: seq<string>) {
    |w| >= 2 && IsWalk(g, w) && w[0] == w[|w| - 1]
  }

  ghost predicate Cyclic(g: Graph) {
    exists w :: IsCycle(g, w)
  }

  lemma WalkSlice(g: Graph, w: seq<string>, i: nat, j: nat)
    requires IsWalk(g, w) && i <= j <= |w|
    ensures IsWalk(g, w[i..j])
  {
    var c := w[i..j];
    forall k | 0 <= k < |c| - 1 ensures Edge(g, c[k], c[k + 1]) {
      assert Edge(g, w[i + k], w[i + k + 1]);
    }
  }

  lemma CyclesStartAtVertices(g: Graph)
    ensures forall w | IsCycle(g, w) :: w[0] in g
  {
    forall w | IsCycle(g, w) ensures w[0] in g {
      assert Edge(g, w[0], w[1]);
    }
  }

  /** A cycle may be entered at its second vertex. */
  lemma RotateCycle(g: Graph, w: seq<string>)
    requires IsCycle(g, w)
    ensures IsCycle(g, w[1..] + [w[1]])
  {
    var r := w[1..] + [w[1]];
    forall i | 0 <= i < |r| - 1
      ensures Edge(g, r[i], r[i + 1])
    {
      if i + 2 < |w| {
        assert Edge(g, w[i + 1], w[i + 2]);
      } else {
        assert Edge(g, w[0], w[1]);
      }
    }
  }

  /** A numbering that strictly decreases along every edge between numbered vertices rules out cycles among them. */
  lemma {:induction false} WalkDescends(g: Graph, rank: map<string, int>, w: seq<string>)
    requires IsWalk(g, w) && |w| >= 2
    requires forall v | v in g :: v in rank
    requires forall v, d | v in g && d in g[v] :: d in rank && rank[d] < rank[v]
    ensures w[0] in rank && w[|w| - 1] in rank && rank[w[|w| - 1]] < rank[w[0]]
  {
    assert Edge(g, w[0], w[1]);
    if |w| > 2 {
      WalkSlice(g, w, 1, |w|);
      WalkDescends(g, rank, w[1..]);
    }
  }

  lemma RankedIsAcyclic(g: Graph, rank: map<string, int>)
    requires forall v | v in g :: v in rank
    requires forall v, d | v in g && d in g[v] :: d in rank && rank[d] < rank[v]
    ensures !Cyclic(g)
  {
    if w :| IsCycle(g, w) {
      WalkDescends(g, rank, w);
    }
  }

  /** The elements of a sequence. */
  function Elements(s: seq<string>): set<string> {
    set x | x in s
  }

  lemma {:induction false} ElementsBound(s: seq<string>)
    ensures |Elements(s)| <= |s|
    ensures (forall i, j | 0 <= i < j < |s| :: s[i] != s[j]) ==> |Elements(s)| == |s|
  {
    if s == [] {
      assert Elements(s) == {};
    } else {
      var init, last := s[..|s| - 1], s[|s| - 1];
      ElementsBound(init);
      assert s == init + [last];
      assert Elements(s) == Elements(init) + {last};
    }
  }

  /** Pigeonhole: a sequence longer than the set it draws from repeats an element. */
  lemma Pigeonhole(s: seq<string>, pool: set<string>) returns (i: nat, j: nat)
    requires Elements(s) <= pool && |s| > |pool|
    ensures i < j < |s| && s[i] == s[j]
  {
    if forall i, j | 0 <= i < j < |s| :: s[i] != s[j] {
      ElementsBound(s);
      SubsetSize(Elements(s), pool);
      assert false;
    }
    i, j :| 0 <= i < j < |s| && s[i] == s[j];
  }

  /** Every vertex of the set still depends on another vertex of the set. */
  ghost predicate Stuck(g: Graph, stuck: set<string>) {
    forall v | v in stuck :: v in g && g[v] * stuck != {}
  }

  /** Inside a stuck set, walks never have to stop. */
  lemma {:induction false} LongWalk(g: Graph, stuck: set<string>, n: nat) returns (w: seq<string>)
    requires stuck != {} && Stuck(g, stuck)
    ensures |w| == n + 1 && IsWalk(g, w) && Elements(w) <= stuck
  {
    if n == 0 {
      var v :| v in stuck;
      w := [v];
    } else {
      var u := LongWalk(g, stuck, n - 1);
      var last := u[|u| - 1];
      assert last in Elements(u);
      var d :| d in g[last] * stuck;
      w := u + [d];
      ExtendWalk(g, u, d);
      assert Elements(w) == Elements(u) + {d};
    }
  }

  lemma ExtendWalk(g: Graph, u: seq<string>, d: string)
    requires IsWalk(g, u)
    requires u == [] || Edge(g, u[|u| - 1], d)
    ensures IsWalk(g, u + [d])
  {
    var w := u + [d];
    forall i | 0 <= i < |w| - 1 ensures Edge(g, w[i], w[i + 1]) {
      if i < |u| - 1 { assert Edge(g, u[i], u[i + 1]); }
    }
  }

  /** If no vertex of a non-empty set can be finished before another one of it, the graph has a cycle. */
  lemma StuckSetHasCycle(g: Graph, stuck: set<string>)
    requires stuck != {} && Stuck(g, stuck)
    ensures Cyclic(g)
  {
    var w := LongWalk(g, stuck, |stuck|);
    var i, j := Pigeonhole(w, stuck);
    WalkSlice(g, w, i, j + 1);
    assert IsCycle(g, w[i..j + 1]);
  }
}
