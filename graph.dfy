/**
 * The graph service of graphing/graph.py: nodes and edges registered by id,
 * the regions with their households and firms, edge insertion with argument
 * validation, and the shortest edge path between two nodes (Dijkstra over
 * the integer edge distances, then a walk back along the predecessor edges).
 */
module Graphs {
  import opened Wrappers
  import opened Ids
  import opened GraphCore
  import opened Establishments
  import opened ShortestPaths

  /** One positional argument of `add_edge(distance, *args)`. */
  datatype EndpointArg = IdArg(id: int) | NodeArg(node: Node) | OtherArg

  /** The ValueErrors of the graph service. */
  datatype GraphError =
    | WrongArgumentCount(count: nat)   // "Expected 2 arguments received n"
    | SameEndpoints                    // "You can't add an edge connecting the same nodes"
    | MissingEndpoint                  // "No node_1 or node_2"
    | NodeNotInGraph                   // "Start or end node ID not in graph."

  class Region {
    const id: int
    const nodes: seq<Node>
    var firms: seq<Firm>
    var households: seq<Household>

    /** `Region(nodes)`: the next region id and no establishments yet. */
    constructor (ids: IdCounter, nodes: seq<Node>)
      modifies ids
      ensures this.nodes == nodes && firms == [] && households == []
      ensures id == old(ids.next) && ids.next == old(ids.next) + 1
    {
      this.nodes := nodes;
      firms, households := [], [];
      id := ids.next;
      new;
      ids.next := ids.next + 1;
    }
  }

  /** The firms of the regions, region by region. */
  function AllFirms(rs: seq<Region>): seq<Firm>
    reads rs
  {
    if rs == [] then [] else AllFirms(rs[..|rs| - 1]) + rs[|rs| - 1].firms
  }

  /** The households of the regions, region by region. */
  function AllHouseholds(rs: seq<Region>): seq<Household>
    reads rs
  {
    if rs == [] then [] else AllHouseholds(rs[..|rs| - 1]) + rs[|rs| - 1].households
  }

  /** A firm is collected exactly when some region lists it. */
  lemma {:induction false} AllFirmsMembers(rs: seq<Region>, f: Firm)
    ensures f in AllFirms(rs) <==> exists i :: 0 <= i < |rs| && f in rs[i].firms
  {
    if rs != [] {
      var init := rs[..|rs| - 1];
      AllFirmsMembers(init, f);
      assert forall i :: 0 <= i < |init| ==> init[i] == rs[i];
    }
  }

  /** A household is collected exactly when some region lists it. */
  lemma {:induction false} AllHouseholdsMembers(rs: seq<Region>, h: Household)
    ensures h in AllHouseholds(rs) <==> exists i :: 0 <= i < |rs| && h in rs[i].households
  {
    if rs != [] {
      var init := rs[..|rs| - 1];
      AllHouseholdsMembers(init, h);
      assert forall i :: 0 <= i < |init| ==> init[i] == rs[i];
    }
  }

  class Graph {
    var nodes: map<int, Node>
    var edges: map<int, Edge>
    /** The values of the `regions` dictionary, in insertion order. */
    var regions: seq<Region>
    /** The class-level `Edge.id` counter that `add_edge` draws from. */
    const edgeIds: IdCounter

    /** Nodes and edges are filed under their own ids; every edge id was handed out already. */
    ghost predicate Valid()
      reads this, edgeIds
    {
      (forall k :: k in nodes ==> nodes[k].id == k) &&
      (forall k :: k in edges ==> edges[k].id == k && k < edgeIds.next)
    }

    /**
     * Every edge listed at a registered node is a registered edge that has
     * the node as an endpoint and both endpoints registered. `add_edge`
     * keeps this when it joins registered nodes. The search below is
     * proved for closed graphs only; the code itself fails only where the
     * search meets an unregistered endpoint (KeyError) or an edge that was
     * never filed (StopIteration on the walk back).
     */
    ghost predicate Closed()
      reads this, nodes.Values
    {
      forall k, e :: k in nodes && e in nodes[k].edges ==>
        e.id in edges && edges[e.id] == e &&
        (e.nodes.0 == nodes[k] || e.nodes.1 == nodes[k]) &&
        e.nodes.0.id in nodes && nodes[e.nodes.0.id] == e.nodes.0 &&
        e.nodes.1.id in nodes && nodes[e.nodes.1.id] == e.nodes.1
    }

    /** No edge listed at a registered node has a negative distance. */
    ghost predicate NonNegative()
      reads this, nodes.Values
    {
      forall k, e :: k in nodes && e in nodes[k].edges ==> e.distance >= 0
    }

    constructor (edgeIds: IdCounter)
      ensures nodes == map[] && edges == map[] && regions == []
      ensures this.edgeIds == edgeIds && Valid()
    {
      nodes, edges, regions := map[], map[], [];
      this.edgeIds := edgeIds;
    }

    /** `add_node(node)`: file the node under its id. */
    method AddNode(node: Node)
      requires Valid()
      modifies this
      ensures Valid()
      ensures nodes == old(nodes)[node.id := node]
      ensures edges == old(edges) && regions == old(regions)
      ensures old(Closed()) && node.id !in old(nodes) && node.edges == [] ==> Closed()
    {
      nodes := nodes[node.id := node];
    }

    /** `get_edge(id)`: the edge filed under `id`, or None. */
    function GetEdge(id: int): (r: Option<Edge>)
      reads this, edgeIds
      ensures r.Some? <==> id in edges
      ensures r.Some? ==> r.value == edges[id]
      ensures Valid() && r.Some? ==> r.value.id == id
    {
      if id in edges then Some(edges[id]) else None
    }

    /** `get_node(id)`: the node filed under `id`, or None. */
    function GetNode(id: int): (r: Option<Node>)
      reads this, edgeIds
      ensures r.Some? <==> id in nodes
      ensures r.Some? ==> r.value == nodes[id]
      ensures Valid() && r.Some? ==> r.value.id == id
    {
      if id in nodes then Some(nodes[id]) else None
    }

    /** `get_firms()`: the regions' firm lists, concatenated in region order. */
    method GetFirms() returns (firms: seq<Firm>)
      ensures firms == AllFirms(regions)
    {
      firms := [];
      for i := 0 to |regions|
        invariant firms == AllFirms(regions[..i])
      {
        assert regions[..i + 1][..i] == regions[..i];
        firms := firms + regions[i].firms;
      }
      assert regions[..|regions|] == regions;
    }

    /** `get_households()`: the regions' household lists, concatenated in region order. */
    method GetHouseholds() returns (households: seq<Household>)
      ensures households == AllHouseholds(regions)
    {
      households := [];
      for i := 0 to |regions|
        invariant households == AllHouseholds(regions[..i])
      {
        assert regions[..i + 1][..i] == regions[..i];
        households := households + regions[i].households;
      }
      assert regions[..|regions|] == regions;
    }

    /**
     * The validation half of `add_edge`: exactly two endpoint arguments,
     * either two distinct node ids that are both registered or two distinct
     * Node objects; anything else (mixed kinds included) is an error.
     */
    function ResolveEndpoints(args: seq<EndpointArg>): (r: Result<(Node, Node), GraphError>)
      reads this
      ensures r == Failure(WrongArgumentCount(|args|)) <==> |args| != 2
      ensures r == Failure(SameEndpoints) <==> (|args| == 2 &&
        ((args[0].IdArg? && args[1].IdArg? && args[0].id == args[1].id) ||
         (args[0].NodeArg? && args[1].NodeArg? && args[0].node == args[1].node)))
      ensures r.Success? <==> (|args| == 2 &&
        ((args[0].IdArg? && args[1].IdArg? && args[0].id != args[1].id && args[0].id in nodes && args[1].id in nodes) ||
         (args[0].NodeArg? && args[1].NodeArg? && args[0].node != args[1].node)))
      ensures r.Success? && args[0].IdArg? ==> r.value == (nodes[args[0].id], nodes[args[1].id])
      ensures r.Success? && args[0].NodeArg? ==> r.value == (args[0].node, args[1].node)
      ensures r.Failure? && r.error != WrongArgumentCount(|args|) && r.error != SameEndpoints ==> r.error == MissingEndpoint
    {
      if |args| != 2 then Failure(WrongArgumentCount(|args|))
      else if args[0].IdArg? && args[1].IdArg? then
        if args[0].id == args[1].id then Failure(SameEndpoints)
        else if args[0].id in nodes && args[1].id in nodes then Success((nodes[args[0].id], nodes[args[1].id]))
        else Failure(MissingEndpoint)
      else if args[0].NodeArg? && args[1].NodeArg? then
        if args[0].node == args[1].node then Failure(SameEndpoints)
        else Success((args[0].node, args[1].node))
      else Failure(MissingEndpoint)
    }

    /** The Node objects among the arguments (they may be outside the graph). */
    function ArgNodes(args: seq<EndpointArg>): set<Node>
    {
      set a | a in args && a.NodeArg? :: a.node
    }

    /**
     * `add_edge(distance, *args)`: validate, create the edge with the next
     * edge id, file it under that id and append it to both endpoints' edge
     * lists. On an error nothing changes.
     */
    method AddEdge(distance: int, args: seq<EndpointArg>) returns (r: Outcome<GraphError>)
      requires Valid()
      modifies this, edgeIds, nodes.Values, ArgNodes(args)
      ensures Valid() && nodes == old(nodes) && regions == old(regions)
      ensures r.Fail? <==> old(ResolveEndpoints(args)).Failure?
      ensures r.Fail? ==> r.error == old(ResolveEndpoints(args)).error
      ensures r.Fail? ==> unchanged(this, edgeIds) && unchanged(nodes.Values) && unchanged(ArgNodes(args))
      ensures r.Pass? ==>
        var (a, b) := old(ResolveEndpoints(args)).value;
        var id := old(edgeIds.next);
        edgeIds.next == id + 1 && id !in old(edges) &&
        edges.Keys == old(edges).Keys + {id} &&
        (forall k :: k in old(edges) ==> edges[k] == old(edges[k])) &&
        fresh(edges[id]) && edges[id].nodes == (a, b) && edges[id].distance == distance && edges[id].agents == [] &&
        a.edges == old(a.edges) + [edges[id]] && b.edges == old(b.edges) + [edges[id]] &&
        (forall n :: n in old(nodes.Values) && n != a && n != b ==> n.edges == old(n.edges))
      ensures (r.Pass? && old(Closed()) &&
        (var (a, b) := old(ResolveEndpoints(args)).value;
         a.id in nodes && nodes[a.id] == a && b.id in nodes && nodes[b.id] == b)) ==> Closed()
      ensures r.Pass? && old(NonNegative()) && distance >= 0 ==> NonNegative()
    {
      var ends := ResolveEndpoints(args);
      if ends.Failure? {
        return Fail(ends.error);
      }
      var (a, b) := ends.value;
      ResolvedEndpointsDiffer(args);
      var edge := new Edge(edgeIds, a, b, distance);
      Attach(edge, a, b);
      r := Pass;
    }

    /**
     * The second half of `add_edge`: file a fresh edge under its id and
     * append it to both endpoints' edge lists. This keeps the graph closed
     * when both endpoints are registered, and keeps every distance
     * non-negative when the new one is.
     */
    method Attach(edge: Edge, a: Node, b: Node)
      requires edge.nodes == (a, b) && a != b && edge.id !in edges
      modifies this, a, b
      ensures nodes == old(nodes) && regions == old(regions)
      ensures edges == old(edges)[edge.id := edge]
      ensures a.edges == old(a.edges) + [edge] && b.edges == old(b.edges) + [edge]
      ensures old(Closed()) && a.id in nodes && nodes[a.id] == a && b.id in nodes && nodes[b.id] == b ==> Closed()
      ensures old(NonNegative()) && edge.distance >= 0 ==> NonNegative()
    {
      ghost var wasClosed := Closed();
      ghost var wasNonNegative := NonNegative();
      edges := edges[edge.id := edge];
      a.edges := a.edges + [edge];
      b.edges := b.edges + [edge];
      if wasClosed && a.id in nodes && nodes[a.id] == a && b.id in nodes && nodes[b.id] == b {
        forall k, e | k in nodes && e in nodes[k].edges
          ensures e.id in edges && edges[e.id] == e
        {
          if e != edge {
            assert e in old(nodes[k].edges);
          }
        }
      }
      if wasNonNegative && edge.distance >= 0 {
        forall k, e | k in nodes && e in nodes[k].edges
          ensures e.distance >= 0
        {
          if e != edge {
            assert e in old(nodes[k].edges);
          }
        }
      }
    }

    /** Endpoints that pass the `add_edge` validation are two different nodes. */
    lemma ResolvedEndpointsDiffer(args: seq<EndpointArg>)
      requires Valid() && ResolveEndpoints(args).Success?
      ensures ResolveEndpoints(args).value.0 != ResolveEndpoints(args).value.1
    {
    }

    // --- shortest_edge_path --------------------------------------------------

    /** The graph as `shortest_edge_path` reads it: nodes, edges and each node's edge list. */
    function Snapshot(): (g: Net)
      reads this, nodes.Values
      ensures g.nodes == nodes && g.edges == edges && g.adj.Keys == nodes.Keys
      ensures forall k :: k in nodes ==> g.adj[k] == nodes[k].edges
    {
      Net(nodes, edges, map k | k in nodes :: nodes[k].edges)
    }

    /** The graph's invariants carry over to its snapshot. */
    lemma SnapshotFacts()
      requires Valid() && Closed() && NonNegative()
      ensures Snapshot().Keyed() && Snapshot().Closed() && Snapshot().NonNegative()
    {
    }

    /**
     * `shortest_edge_path(start_id, end_id)`. An id not in the graph is a
     * ValueError; otherwise the result is empty when the two ids agree or
     * the end cannot be reached, and is a shortest walk from start to end
     * when it can.
     */
    method ShortestEdgePath(startId: int, endId: int) returns (r: Result<seq<int>, GraphError>)
      requires Valid() && Closed() && NonNegative()
      ensures r.Failure? <==> startId !in nodes || endId !in nodes
      ensures r.Failure? ==> r.error == NodeNotInGraph
      ensures r.Success? && startId == endId ==> r.value == []
      ensures r.Success? && !Snapshot().Reachable(startId, endId) ==> r.value == []
      ensures r.Success? && Snapshot().Reachable(startId, endId) ==>
        Snapshot().IsPath(startId, r.value, endId) &&
        forall p :: Snapshot().IsPath(startId, p, endId) ==> Snapshot().PathLength(r.value) <= Snapshot().PathLength(p)
    {
      if startId !in nodes || endId !in nodes {
        return Failure(NodeNotInGraph);
      }
      SnapshotFacts();
      var path := ShortestPath(Snapshot(), startId, endId);
      return Success(path);
    }
  }
}
