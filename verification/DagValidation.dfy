/** DagExecutionService: validation of a DAG request, with its depth-first cycle search. */
module DagValidation {
  import opened Digraph
  import opened PacketOrder
  import opened Wrappers

  datatype DagNode = DagNode(nodeId: string, packetId: PacketId, dependsOn: seq<string>)

  datatype DagRequest = DagRequest(nodes: seq<DagNode>, maxConcurrency: Option<real>)

  datatype RunRow = RunRow(repositoryId: string, currentIteration: int)

  datatype PacketRow = PacketRow(packet: Packet, repositoryId: string, runId: string, campaignId: string, iteration: int)

  /** The durable tables the validation reads; a packet row is stored under its packet's id. */
  datatype Tables = Tables(repositories: set<string>, runs: map<string, RunRow>, packets: map<PacketId, PacketRow>)

  ghost predicate KeyedById(t: Tables) {
    forall id | id in t.packets :: t.packets[id].packet.packetId == id
  }

  datatype Rejection =
    | RepositoryNotFound
    | CorrelationInvalid
    | IterationMismatch
    | BadConcurrency
    | BadNodeCount
    | DuplicateNode(id: string)
    | DuplicatePacket(id: string)
    | SelfDependency(id: string)
    | DuplicateDependency(id: string)
    | UnknownDependency(id: string)
    | CycleFound
    | PacketNotDurable
    | ForeignPacket(id: string)
    | DependencyMismatch(id: string)

  datatype Validation = Accepted(packets: seq<Packet>) | Rejected(why: Rejection)

  // ---------- The node graph ----------

  ghost predicate DistinctNodes(nodes: seq<DagNode>) {
    forall i, j | 0 <= i < j < |nodes| :: nodes[i].nodeId != nodes[j].nodeId && nodes[i].packetId != nodes[j].packetId
  }

  type NodeMap = map<string, DagNode>

  ghost function NodeGraph(byNode: NodeMap): Graph {
    map id | id in byNode :: Elements(byNode[id].dependsOn)
  }

  function NodeIds(nodes: seq<DagNode>): set<string> {
    set n | n in nodes :: n.nodeId
  }

  function NodesById(nodes: seq<DagNode>): (m: NodeMap)
    requires DistinctNodes(nodes)
    ensures m.Keys == NodeIds(nodes)
    ensures forall id | id in m :: m[id] in nodes && m[id].nodeId == id
  {
    map n | n in nodes :: n.nodeId := n
  }

  // ---------- Depth-first search ----------

  /** The two colour sets hasCycle captures in its closure. */
  class CycleSearch {
    const byNode: NodeMap
    var visiting: set<string>
    var visited: set<string>
    /** The open calls of visit, outermost first. */
    ghost var stack: seq<string>

    ghost predicate Valid()
      reads this
    {
      && visiting == Elements(stack)
      && IsWalk(NodeGraph(byNode), stack)
      && (forall w | IsCycle(NodeGraph(byNode), w) :: w[0] !in visited)
    }

    constructor (byNode: NodeMap)
      ensures this.byNode == byNode && visiting == {} && visited == {} && stack == [] && Valid()
    {
      this.byNode := byNode;
      visiting, visited, stack := {}, {}, [];
    }

    /** True exactly when the search runs into an open call; false leaves the vertex finished. */
    method Visit(nodeId: string, ghost universe: set<string>) returns (cyclic: bool)
      requires Valid() && ClosedUnder(byNode, universe) && nodeId in universe && visiting <= universe
      requires stack == [] || Edge(NodeGraph(byNode), stack[|stack| - 1], nodeId)
      modifies this
      ensures cyclic ==> Cyclic(NodeGraph(byNode))
      ensures !cyclic ==> Valid() && visiting == old(visiting) && stack == old(stack)
      ensures !cyclic ==> old(visited) <= visited && nodeId in visited
      decreases universe - visiting
    {
      if nodeId in visiting {
        ClosingCycle(NodeGraph(byNode), stack, nodeId);
        return true;
      }
      if nodeId in visited {
        return false;
      }
      ghost var open := stack;
      ghost var opening := visiting;
      visiting := visiting + {nodeId};
      stack := stack + [nodeId];
      ExtendWalk(NodeGraph(byNode), open, nodeId);
      assert visiting == Elements(stack);
      var dependsOn := if nodeId in byNode then byNode[nodeId].dependsOn else [];
      for i := 0 to |dependsOn|
        invariant Valid() && visiting == opening + {nodeId} && stack == open + [nodeId]
        invariant old(visited) <= visited
        invariant forall d | d in dependsOn[..i] :: d in visited
      {
        assert dependsOn[i] in NodeGraph(byNode)[nodeId];
        var found := Visit(dependsOn[i], universe);
        if found {
          return true;
        }
      }
      FinishedVertex(NodeGraph(byNode), nodeId, visited, dependsOn);
      visiting := visiting - {nodeId};
      stack := open;
      visited := visited + {nodeId};
      assert Elements(stack) == opening;
      return false;
    }
  }

  ghost predicate ClosedUnder(byNode: NodeMap, universe: set<string>) {
    forall id | id in byNode :: Elements(byNode[id].dependsOn) <= universe
  }

  lemma ClosingCycle(g: Graph, stack: seq<string>, v: string)
    requires IsWalk(g, stack) && v in stack && Edge(g, stack[|stack| - 1], v)
    ensures Cyclic(g)
  {
    var i :| 0 <= i < |stack| && stack[i] == v;
    WalkSlice(g, stack, i, |stack|);
    ExtendWalk(g, stack[i..], v);
    assert IsCycle(g, stack[i..] + [v]);
  }

  /** A vertex whose successors lie on no cycle lies on none. */
  lemma FinishedVertex(g: Graph, v: string, visited: set<string>, dependsOn: seq<string>)
    requires forall w | IsCycle(g, w) :: w[0] !in visited
    requires forall d | d in dependsOn :: d in visited
    requires v in g ==> g[v] == Elements(dependsOn)
    ensures forall w | IsCycle(g, w) :: w[0] !in visited + {v}
  {
    forall w | IsCycle(g, w) ensures w[0] !in visited + {v} {
      RotateCycle(g, w);
      assert Edge(g, w[0], w[1]);
      var r := w[1..] + [w[1]];
      assert r[0] == w[1] && IsCycle(g, r);
    }
  }

  method HasCycle(nodes: seq<DagNode>, byNode: NodeMap) returns (cyclic: bool)
    requires DistinctNodes(nodes) && byNode == NodesById(nodes)
    ensures cyclic <==> Cyclic(NodeGraph(byNode))
  {
    var search := new CycleSearch(byNode);
    ghost var universe := byNode.Keys + set id, d | id in byNode && d in byNode[id].dependsOn :: d;
    for i := 0 to |nodes|
      invariant search.Valid() && search.stack == [] && search.visiting == {}
      invariant forall n | n in nodes[..i] :: n.nodeId in search.visited
    {
      assert nodes[i].nodeId in byNode;
      var found := search.Visit(nodes[i].nodeId, universe);
      if found {
        return true;
      }
    }
    assert nodes[..|nodes|] == nodes;
    CyclesStartAtVertices(NodeGraph(byNode));
    return false;
  }

  // ---------- Validation ----------

  ghost predicate NoRepeats(s: seq<string>) {
    forall i, j | 0 <= i < j < |s| :: s[i] != s[j]
  }

  ghost predicate DependenciesKnown(nodes: seq<DagNode>) {
    forall n, d | n in nodes && d in n.dependsOn :: d in NodeIds(nodes)
  }

  ghost predicate WellFormedNodes(nodes: seq<DagNode>) {
    && DistinctNodes(nodes)
    && (forall n | n in nodes :: n.nodeId !in n.dependsOn)
    && (forall n | n in nodes :: NoRepeats(n.dependsOn))
    && DependenciesKnown(nodes)
  }

  /** The packet ids a node's dependencies stand for. */
  function PacketDependencies(byNode: NodeMap, node: DagNode): (r: seq<PacketId>)
    requires forall d | d in node.dependsOn :: d in byNode
  {
    seq(|node.dependsOn|, i requires 0 <= i < |node.dependsOn| => byNode[node.dependsOn[i]].packetId)
  }

  predicate BelongsTo(row: PacketRow, repositoryId: string, runId: string, iteration: int) {
    row.runId == runId && row.campaignId == runId && row.iteration == iteration && row.repositoryId == repositoryId
  }

  ghost predicate PacketsMatch(t: Tables, repositoryId: string, runId: string, iteration: int, nodes: seq<DagNode>)
    requires WellFormedNodes(nodes)
  {
    && (forall n | n in nodes :: n.packetId in t.packets)
    && (forall n | n in nodes :: BelongsTo(t.packets[n.packetId], repositoryId, runId, iteration))
    && (forall n | n in nodes ::
          multiset(t.packets[n.packetId].packet.dependencies) == multiset(PacketDependencies(NodesById(nodes), n)))
  }

  predicate ValidConcurrency(c: Option<real>) {
    var value := if c.Some? then c.value else 2.0;
    value.Floor as real == value && 1.0 <= value <= 32.0
  }

  /** Everything a request must satisfy to be accepted. */
  ghost predicate Acceptable(t: Tables, repositoryId: string, runId: string, iteration: int, request: DagRequest) {
    && repositoryId in t.repositories
    && runId in t.runs && t.runs[runId] == RunRow(repositoryId, iteration)
    && ValidConcurrency(request.maxConcurrency)
    && 1 <= |request.nodes| <= 100
    && WellFormedNodes(request.nodes)
    && !Cyclic(NodeGraph(NodesById(request.nodes)))
    && PacketsMatch(t, repositoryId, runId, iteration, request.nodes)
  }

  // ---------- Which fault is reported ----------

  predicate NodeIsNew(nodes: seq<DagNode>, i: nat)
    requires i < |nodes|
  {
    forall j | 0 <= j < i :: nodes[j].nodeId != nodes[i].nodeId
  }

  predicate PacketIsNew(nodes: seq<DagNode>, i: nat)
    requires i < |nodes|
  {
    forall j | 0 <= j < i :: nodes[j].packetId != nodes[i].packetId
  }

  /** Node i is new in both its ids, and depends on other nodes, on each once. */
  ghost predicate WellShaped(nodes: seq<DagNode>, i: nat)
    requires i < |nodes|
  {
    NodeIsNew(nodes, i) && PacketIsNew(nodes, i) && nodes[i].nodeId !in nodes[i].dependsOn && NoRepeats(nodes[i].dependsOn)
  }

  /** The first node that is not well shaped. */
  ghost predicate FirstIllShaped(nodes: seq<DagNode>, i: nat)
    requires i < |nodes|
  {
    !WellShaped(nodes, i) && forall j | 0 <= j < i :: WellShaped(nodes, j)
  }

  /** The first dependency, in reading order, that names no node. */
  ghost predicate FirstUnknown(nodes: seq<DagNode>, i: nat, j: nat)
    requires i < |nodes| && j < |nodes[i].dependsOn|
  {
    && nodes[i].dependsOn[j] !in NodeIds(nodes)
    && (forall k, d | 0 <= k < i && d in nodes[k].dependsOn :: d in NodeIds(nodes))
    && (forall k | 0 <= k < j :: nodes[i].dependsOn[k] in NodeIds(nodes))
  }

  /** The fault found in the request's own text: that of the first ill-shaped node, and else the first unknown dependency. */
  ghost predicate ShapeFault(nodes: seq<DagNode>, why: Rejection) {
    match why
    case DuplicateNode(id) => exists i :: 0 <= i < |nodes| && FirstIllShaped(nodes, i) && nodes[i].nodeId == id && !NodeIsNew(nodes, i)
    case DuplicatePacket(id) =>
      exists i :: 0 <= i < |nodes| && FirstIllShaped(nodes, i) && nodes[i].packetId == id && NodeIsNew(nodes, i) && !PacketIsNew(nodes, i)
    case SelfDependency(id) =>
      exists i :: 0 <= i < |nodes| && FirstIllShaped(nodes, i) && nodes[i].nodeId == id
                  && NodeIsNew(nodes, i) && PacketIsNew(nodes, i) && id in nodes[i].dependsOn
    case DuplicateDependency(id) =>
      exists i :: 0 <= i < |nodes| && FirstIllShaped(nodes, i) && nodes[i].nodeId == id
                  && NodeIsNew(nodes, i) && PacketIsNew(nodes, i) && id !in nodes[i].dependsOn
    case UnknownDependency(id) =>
      && (forall i | 0 <= i < |nodes| :: WellShaped(nodes, i))
      && exists i, j :: 0 <= i < |nodes| && 0 <= j < |nodes[i].dependsOn| && FirstUnknown(nodes, i, j) && nodes[i].dependsOn[j] == id
    case _ => false
  }

  /** The packet of the node belongs to the iteration and has the dependencies of its node. */
  ghost predicate PacketFits(t: Tables, repositoryId: string, runId: string, iteration: int, nodes: seq<DagNode>, n: DagNode)
    requires WellFormedNodes(nodes) && n in nodes
  {
    && n.packetId in t.packets && BelongsTo(t.packets[n.packetId], repositoryId, runId, iteration)
    && multiset(t.packets[n.packetId].packet.dependencies) == multiset(PacketDependencies(NodesById(nodes), n))
  }

  ghost predicate FirstUnfit(t: Tables, repositoryId: string, runId: string, iteration: int, nodes: seq<DagNode>, i: nat)
    requires WellFormedNodes(nodes) && i < |nodes|
  {
    && !PacketFits(t, repositoryId, runId, iteration, nodes, nodes[i])
    && forall j | 0 <= j < i :: PacketFits(t, repositoryId, runId, iteration, nodes, nodes[j])
  }

  /** The fault found in the durable packets: a missing one, and else that of the first node whose packet does not fit. */
  ghost predicate PacketFault(t: Tables, repositoryId: string, runId: string, iteration: int, nodes: seq<DagNode>, why: Rejection)
    requires WellFormedNodes(nodes)
  {
    var durable := forall n | n in nodes :: n.packetId in t.packets;
    match why
    case PacketNotDurable => !durable
    case ForeignPacket(id) =>
      durable && exists i :: 0 <= i < |nodes| && FirstUnfit(t, repositoryId, runId, iteration, nodes, i) && nodes[i].packetId == id
                             && !BelongsTo(t.packets[id], repositoryId, runId, iteration)
    case DependencyMismatch(id) =>
      durable && exists i :: 0 <= i < |nodes| && FirstUnfit(t, repositoryId, runId, iteration, nodes, i) && nodes[i].nodeId == id
                             && BelongsTo(t.packets[nodes[i].packetId], repositoryId, runId, iteration)
    case _ => false
  }

  /** Why a request is rejected: the first thing that is wrong with it. */
  ghost predicate RejectedFor(t: Tables, repositoryId: string, runId: string, iteration: int, request: DagRequest, why: Rejection) {
    if repositoryId !in t.repositories then why == RepositoryNotFound
    else if runId !in t.runs || t.runs[runId].repositoryId != repositoryId then why == CorrelationInvalid
    else if t.runs[runId].currentIteration != iteration then why == IterationMismatch
    else if !ValidConcurrency(request.maxConcurrency) then why == BadConcurrency
    else if !(1 <= |request.nodes| <= 100) then why == BadNodeCount
    else if !WellFormedNodes(request.nodes) then ShapeFault(request.nodes, why)
    else if Cyclic(NodeGraph(NodesById(request.nodes))) then why == CycleFound
    else PacketFault(t, repositoryId, runId, iteration, request.nodes, why)
  }

  method Validate(t: Tables, repositoryId: string, runId: string, iteration: int, request: DagRequest)
    returns (r: Validation)
    requires KeyedById(t)
    ensures r.Accepted? <==> Acceptable(t, repositoryId, runId, iteration, request)
    ensures r.Accepted? ==> Selected(t, request.nodes, r.packets)
    ensures r.Rejected? ==> RejectedFor(t, repositoryId, runId, iteration, request, r.why)
    ensures r.Rejected? && r.why.CycleFound? ==> WellFormedNodes(request.nodes) && Cyclic(NodeGraph(NodesById(request.nodes)))
  {
    hide NodeGraph, Cyclic, PacketsMatch, ShapeFault, PacketFault, WellFormedNodes;
    var nodes := request.nodes;
    if repositoryId !in t.repositories { return Rejected(RepositoryNotFound); }
    if runId !in t.runs || t.runs[runId].repositoryId != repositoryId { return Rejected(CorrelationInvalid); }
    if t.runs[runId].currentIteration != iteration { return Rejected(IterationMismatch); }
    if !ValidConcurrency(request.maxConcurrency) { return Rejected(BadConcurrency); }
    if |nodes| == 0 || |nodes| > 100 { return Rejected(BadNodeCount); }

    var shape := CheckShape(nodes);
    if shape.Some? { return Rejected(shape.value); }
    WellFormedAreDistinct(nodes);
    var byNode := NodesById(nodes);
    var cyclic := HasCycle(nodes, byNode);
    if cyclic { return Rejected(CycleFound); }

    var mismatch := CheckPackets(t, repositoryId, runId, iteration, nodes);
    if mismatch.Some? { return Rejected(mismatch.value); }
    MatchedPacketsExist(t, repositoryId, runId, iteration, nodes);
    return Accepted(seq(|nodes|, i requires 0 <= i < |nodes| => t.packets[nodes[i].packetId].packet));
  }

  lemma MatchedPacketsExist(t: Tables, repositoryId: string, runId: string, iteration: int, nodes: seq<DagNode>)
    requires WellFormedNodes(nodes) && PacketsMatch(t, repositoryId, runId, iteration, nodes)
    ensures forall n | n in nodes :: n.packetId in t.packets
  {
  }

  lemma WellFormedAreDistinct(nodes: seq<DagNode>)
    requires WellFormedNodes(nodes)
    ensures DistinctNodes(nodes) && DependenciesKnown(nodes)
  {
  }

  lemma MatchIffAllFit(t: Tables, repositoryId: string, runId: string, iteration: int, nodes: seq<DagNode>)
    requires WellFormedNodes(nodes)
    ensures PacketsMatch(t, repositoryId, runId, iteration, nodes) <==>
            forall i | 0 <= i < |nodes| :: PacketFits(t, repositoryId, runId, iteration, nodes, nodes[i])
  {
    hide BelongsTo, PacketDependencies, NodesById;
    if forall i | 0 <= i < |nodes| :: PacketFits(t, repositoryId, runId, iteration, nodes, nodes[i]) {
      assert forall n | n in nodes :: PacketFits(t, repositoryId, runId, iteration, nodes, n);
    }
  }

  /** The first packet that does not fit is reported as foreign, or by its node as mismatched. */
  lemma UnfitIsReported(t: Tables, repositoryId: string, runId: string, iteration: int, nodes: seq<DagNode>, i: nat)
    requires WellFormedNodes(nodes) && i < |nodes| && FirstUnfit(t, repositoryId, runId, iteration, nodes, i)
    requires forall n | n in nodes :: n.packetId in t.packets
    ensures PacketFault(t, repositoryId, runId, iteration, nodes,
                        if BelongsTo(t.packets[nodes[i].packetId], repositoryId, runId, iteration) then DependencyMismatch(nodes[i].nodeId)
                        else ForeignPacket(nodes[i].packetId))
  {
    hide FirstUnfit, BelongsTo, WellFormedNodes;
  }

  /** The loop over the durable packets: each exists, belongs to the iteration, and has the dependencies of its node. */
  method CheckPackets(t: Tables, repositoryId: string, runId: string, iteration: int, nodes: seq<DagNode>)
    returns (fault: Option<Rejection>)
    requires WellFormedNodes(nodes)
    ensures fault.None? <==> PacketsMatch(t, repositoryId, runId, iteration, nodes)
    ensures fault.Some? ==> PacketFault(t, repositoryId, runId, iteration, nodes, fault.value)
    ensures fault.Some? ==> !fault.value.CycleFound?
  {
    MatchIffAllFit(t, repositoryId, runId, iteration, nodes);
    if exists n | n in nodes :: n.packetId !in t.packets { return Some(PacketNotDurable); }
    WellFormedAreDistinct(nodes);
    hide PacketsMatch, WellFormedNodes, BelongsTo, PacketDependencies, NodesById, PacketFault;
    var byNode := NodesById(nodes);
    for i := 0 to |nodes|
      invariant forall j | 0 <= j < i :: PacketFits(t, repositoryId, runId, iteration, nodes, nodes[j])
    {
      var node := nodes[i];
      assert node in nodes;
      var row := t.packets[node.packetId];
      if !PacketFits(t, repositoryId, runId, iteration, nodes, node) {
        UnfitIsReported(t, repositoryId, runId, iteration, nodes, i);
      }
      if !BelongsTo(row, repositoryId, runId, iteration) { return Some(ForeignPacket(node.packetId)); }
      // Both lists are sorted and compared entry by entry, which compares them as multisets.
      if multiset(PacketDependencies(byNode, node)) != multiset(row.packet.dependencies) {
        return Some(DependencyMismatch(node.nodeId));
      }
    }
    return None;
  }

  /** The loops over the request's own text: unique ids, no self or repeated dependency, all dependencies named. */
  method CheckShape(nodes: seq<DagNode>) returns (fault: Option<Rejection>)
    ensures fault.None? <==> WellFormedNodes(nodes)
    ensures fault.Some? ==> ShapeFault(nodes, fault.value)
    ensures fault.Some? ==> !fault.value.CycleFound?
  {
    WellFormedIff(nodes);
    hide WellFormedNodes, WellShaped;
    var nodeIds: set<string>;
    fault, nodeIds := CheckNodes(nodes);
    if fault.None? {
      fault := CheckDependencies(nodes, nodeIds);
    }
  }

  lemma WellFormedIff(nodes: seq<DagNode>)
    ensures WellFormedNodes(nodes) <==> (forall i | 0 <= i < |nodes| :: WellShaped(nodes, i)) && DependenciesKnown(nodes)
  {
    if forall i | 0 <= i < |nodes| :: WellShaped(nodes, i) {
      forall i, j | 0 <= i < j < |nodes| ensures nodes[i].nodeId != nodes[j].nodeId && nodes[i].packetId != nodes[j].packetId {
        assert WellShaped(nodes, j);
      }
      forall n | n in nodes ensures n.nodeId !in n.dependsOn && NoRepeats(n.dependsOn) {
        var i :| 0 <= i < |nodes| && nodes[i] == n;
        assert WellShaped(nodes, i);
      }
    }
    if WellFormedNodes(nodes) {
      forall i | 0 <= i < |nodes| ensures WellShaped(nodes, i) {
        assert nodes[i] in nodes;
      }
    }
  }

  method CheckNodes(nodes: seq<DagNode>) returns (fault: Option<Rejection>, nodeIds: set<string>)
    ensures fault.None? <==> forall i | 0 <= i < |nodes| :: WellShaped(nodes, i)
    ensures fault.None? ==> nodeIds == NodeIds(nodes)
    ensures fault.Some? ==> ShapeFault(nodes, fault.value) && !fault.value.CycleFound?
  {
    nodeIds := {};
    var packetIds: set<PacketId> := {};
    for i := 0 to |nodes|
      invariant nodeIds == NodeIds(nodes[..i])
      invariant packetIds == set n | n in nodes[..i] :: n.packetId
      invariant forall j | 0 <= j < i :: WellShaped(nodes, j)
    {
      var node := nodes[i];
      IdsBefore(nodes, i);
      assert !WellShaped(nodes, i) ==> FirstIllShaped(nodes, i);
      if node.nodeId in nodeIds { return Some(DuplicateNode(node.nodeId)), nodeIds; }
      if node.packetId in packetIds { return Some(DuplicatePacket(node.packetId)), nodeIds; }
      if node.nodeId in node.dependsOn { return Some(SelfDependency(node.nodeId)), nodeIds; }
      if |Elements(node.dependsOn)| != |node.dependsOn| {
        ElementsBound(node.dependsOn);
        return Some(DuplicateDependency(node.nodeId)), nodeIds;
      }
      SizeShowsNoRepeats(node.dependsOn);
      nodeIds := nodeIds + {node.nodeId};
      packetIds := packetIds + {node.packetId};
      assert nodes[..i + 1] == nodes[..i] + [node];
    }
    assert nodes[..|nodes|] == nodes;
    return None, nodeIds;
  }

  method CheckDependencies(nodes: seq<DagNode>, nodeIds: set<string>) returns (fault: Option<Rejection>)
    requires nodeIds == NodeIds(nodes) && forall i | 0 <= i < |nodes| :: WellShaped(nodes, i)
    ensures fault.None? <==> DependenciesKnown(nodes)
    ensures fault.Some? ==> ShapeFault(nodes, fault.value) && !fault.value.CycleFound?
  {
    hide WellShaped, NodeIds;
    for i := 0 to |nodes|
      invariant forall k, d | 0 <= k < i && d in nodes[k].dependsOn :: d in nodeIds
    {
      for j := 0 to |nodes[i].dependsOn|
        invariant forall k | 0 <= k < j :: nodes[i].dependsOn[k] in nodeIds
      {
        if nodes[i].dependsOn[j] !in nodeIds {
          assert FirstUnknown(nodes, i, j);
          assert nodes[i] in nodes && nodes[i].dependsOn[j] in nodes[i].dependsOn;
          return Some(UnknownDependency(nodes[i].dependsOn[j]));
        }
      }
    }
    return None;
  }

  /** The ids seen so far say whether the next node is new. */
  lemma IdsBefore(nodes: seq<DagNode>, i: nat)
    requires i < |nodes|
    ensures nodes[i].nodeId !in NodeIds(nodes[..i]) <==> NodeIsNew(nodes, i)
    ensures nodes[i].packetId !in (set n | n in nodes[..i] :: n.packetId) <==> PacketIsNew(nodes, i)
  {
    assert forall j | 0 <= j < i :: nodes[j] in nodes[..i];
  }

  lemma {:induction false} SizeShowsNoRepeats(s: seq<string>)
    requires |Elements(s)| == |s|
    ensures NoRepeats(s)
  {
    if s != [] {
      var init, last := s[..|s| - 1], s[|s| - 1];
      assert s == init + [last];
      assert Elements(s) == Elements(init) + {last};
      ElementsBound(init);
      assert last !in Elements(init);
      SizeShowsNoRepeats(init);
    }
  }

  // ---------- Agreement of the two graph algorithms ----------

  ghost predicate Selected(t: Tables, nodes: seq<DagNode>, packets: seq<Packet>)
    requires KeyedById(t)
  {
    |packets| == |nodes| &&
    forall i | 0 <= i < |packets| :: nodes[i].packetId in t.packets && packets[i] == t.packets[nodes[i].packetId].packet
  }

  /** A packet dependency is the packet of some dependency of its node. */
  lemma DependencyStandsForNode(t: Tables, repositoryId: string, runId: string, iteration: int, nodes: seq<DagNode>,
                                packets: seq<Packet>, i: nat, d: PacketId) returns (k: nat)
    requires KeyedById(t) && WellFormedNodes(nodes) && PacketsMatch(t, repositoryId, runId, iteration, nodes)
    requires Selected(t, nodes, packets) && i < |nodes| && d in packets[i].dependencies
    ensures k < |nodes| && nodes[k].packetId == d && nodes[k].nodeId in nodes[i].dependsOn
  {
    var byNode := NodesById(nodes);
    var n := nodes[i];
    assert n in nodes;
    var expected := PacketDependencies(byNode, n);
    SameMembers(packets[i].dependencies, expected, d);
    var j :| 0 <= j < |expected| && expected[j] == d;
    var m := byNode[n.dependsOn[j]];
    k :| 0 <= k < |nodes| && nodes[k] == m;
  }

  lemma SameMembers(a: seq<string>, b: seq<string>, x: string)
    requires multiset(a) == multiset(b) && x in a
    ensures x in b
  {
    assert x in multiset(a);
  }

  /** Accepted packets carry the node graph: distinct ids, no dangling dependency, no cycle. */
  lemma AcceptedPacketsOrderable(t: Tables, repositoryId: string, runId: string, iteration: int, request: DagRequest,
                                 packets: seq<Packet>)
    requires KeyedById(t) && Acceptable(t, repositoryId, runId, iteration, request)
    requires Selected(t, request.nodes, packets)
    ensures DistinctIds(packets) && DependenciesPresent(packets) && !Cyclic(GraphOf(packets))
  {
    var nodes := request.nodes;
    assert forall i | 0 <= i < |nodes| :: nodes[i] in nodes && packets[i].packetId == nodes[i].packetId;
    forall p, d | p in packets && d in p.dependencies ensures d in Ids(packets) {
      var i :| 0 <= i < |packets| && packets[i] == p;
      var k := DependencyStandsForNode(t, repositoryId, runId, iteration, nodes, packets, i, d);
      assert packets[k] in packets && packets[k].packetId == d;
    }
    if w :| IsCycle(GraphOf(packets), w) {
      CycleLiftsToNodes(t, repositoryId, runId, iteration, nodes, packets, w);
    }
  }

  lemma CycleLiftsToNodes(t: Tables, repositoryId: string, runId: string, iteration: int, nodes: seq<DagNode>,
                          packets: seq<Packet>, w: seq<PacketId>)
    requires KeyedById(t) && WellFormedNodes(nodes) && PacketsMatch(t, repositoryId, runId, iteration, nodes)
    requires Selected(t, nodes, packets) && DistinctIds(packets) && IsCycle(GraphOf(packets), w)
    ensures Cyclic(NodeGraph(NodesById(nodes)))
  {
    hide PacketsMatch, Selected, WellFormedNodes, DistinctIds, KeyedById, NodeGraph;
    var v: seq<string> := [];
    while |v| < |w|
      invariant |v| <= |w|
      invariant forall i | 0 <= i < |v| :: StandsFor(nodes, v[i], w[i])
    {
      var i := |v|;
      var k, m := EdgeStandsForNodes(t, repositoryId, runId, iteration, nodes, packets, w, if i == 0 then 0 else i - 1);
      v := v + [nodes[if i == 0 then k else m].nodeId];
    }
    WellFormedAreDistinct(nodes);
    forall i | 0 <= i < |v| - 1 ensures Edge(NodeGraph(NodesById(nodes)), v[i], v[i + 1]) {
      EdgeLifts(t, repositoryId, runId, iteration, nodes, packets, w, i, v[i], v[i + 1]);
    }
    StandsForUnique(nodes, v[0], v[|v| - 1], w[0]);
    assert IsCycle(NodeGraph(NodesById(nodes)), v);
  }

  /** An edge of the packet graph is an edge between the nodes the packets stand for. */
  lemma EdgeLifts(t: Tables, repositoryId: string, runId: string, iteration: int, nodes: seq<DagNode>,
                  packets: seq<Packet>, w: seq<PacketId>, i: nat, a: string, b: string)
    requires KeyedById(t) && WellFormedNodes(nodes) && PacketsMatch(t, repositoryId, runId, iteration, nodes)
    requires Selected(t, nodes, packets) && DistinctIds(packets) && IsWalk(GraphOf(packets), w) && i < |w| - 1
    requires StandsFor(nodes, a, w[i]) && StandsFor(nodes, b, w[i + 1])
    ensures Edge(NodeGraph(NodesById(nodes)), a, b)
  {
    var k, m := EdgeStandsForNodes(t, repositoryId, runId, iteration, nodes, packets, w, i);
    WellFormedAreDistinct(nodes);
    NodeEdge(nodes, k, m);
    hide PacketsMatch, Selected, WellFormedNodes, GraphOf, DistinctIds, DistinctNodes, NodeGraph, NodesById, Edge, IsWalk, StandsFor, KeyedById;
    StandsForUnique(nodes, a, nodes[k].nodeId, w[i]);
    StandsForUnique(nodes, b, nodes[m].nodeId, w[i + 1]);
  }

  lemma NodeEdge(nodes: seq<DagNode>, k: nat, m: nat)
    requires DistinctNodes(nodes) && k < |nodes| && m < |nodes| && nodes[m].nodeId in nodes[k].dependsOn
    ensures Edge(NodeGraph(NodesById(nodes)), nodes[k].nodeId, nodes[m].nodeId)
  {
    assert nodes[k] in nodes && NodesById(nodes)[nodes[k].nodeId] == nodes[k];
  }

  ghost predicate StandsFor(nodes: seq<DagNode>, nodeId: string, packetId: PacketId) {
    exists k :: 0 <= k < |nodes| && nodes[k].nodeId == nodeId && nodes[k].packetId == packetId
  }

  lemma StandsForUnique(nodes: seq<DagNode>, a: string, b: string, packetId: PacketId)
    requires DistinctNodes(nodes) && StandsFor(nodes, a, packetId) && StandsFor(nodes, b, packetId)
    ensures a == b
  {
  }

  lemma EdgeStandsForNodes(t: Tables, repositoryId: string, runId: string, iteration: int, nodes: seq<DagNode>,
                           packets: seq<Packet>, w: seq<PacketId>, at: nat)
    returns (k: nat, m: nat)
    requires KeyedById(t) && WellFormedNodes(nodes) && PacketsMatch(t, repositoryId, runId, iteration, nodes)
    requires Selected(t, nodes, packets) && DistinctIds(packets)
    requires at < |w| - 1 && IsWalk(GraphOf(packets), w)
    ensures k < |nodes| && m < |nodes| && nodes[k].packetId == w[at] && nodes[m].packetId == w[at + 1]
    ensures nodes[m].nodeId in nodes[k].dependsOn
    ensures StandsFor(nodes, nodes[k].nodeId, w[at]) && StandsFor(nodes, nodes[m].nodeId, w[at + 1])
  {
    assert Edge(GraphOf(packets), w[at], w[at + 1]);
    var p :| p in packets && p.packetId == w[at];
    k :| 0 <= k < |packets| && packets[k] == p;
    assert nodes[k].packetId in t.packets;
    assert GraphOf(packets)[w[at]] == Elements(p.dependencies);
    m := DependencyStandsForNode(t, repositoryId, runId, iteration, nodes, packets, k, w[at + 1]);
  }
}
