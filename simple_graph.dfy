/**
 * The small adjacency helper of graph.py: a node knows its id and, once a
 * caller has assigned it, its edge list; an edge knows its two endpoints and
 * a weight. The constructor of a node sets only the id, so `edges` may be
 * missing, in which case Python raises AttributeError: `edges` is `None`
 * here until it is assigned, and both getters report the missing list.
 */
module SimpleGraph {
  import opened Wrappers

  class Node {
    const id: int
    /** The `edges` attribute, or None while it has never been assigned. */
    var edges: Option<seq<Edge>>

    /** `Node(id)`: only the id is set. */
    constructor (id: int)
      ensures this.id == id && edges == None
    {
      this.id := id;
      edges := None;
    }

    /** `get_edges()`: the edge list itself, or the missing attribute. */
    function GetEdges(): (r: Option<seq<Edge>>)
      reads this
      ensures r.None? <==> edges.None?
      ensures r.Some? ==> r.value == edges.value
    {
      edges
    }

    /**
     * `adjacent_nodes()`: one node per edge, in edge order, chosen by the
     * rule of `Edge.Far`.
     */
    function AdjacentNodes(): (r: Option<seq<Node>>)
      reads this
      ensures r.None? <==> edges.None?
      ensures r.Some? ==> |r.value| == |edges.value|
      ensures r.Some? ==> forall i :: 0 <= i < |r.value| ==> r.value[i] == edges.value[i].Far(this)
    {
      match edges
      case None => None
      case Some(es) => Some(seq(|es|, i requires 0 <= i < |es| => es[i].Far(this)))
    }

    /**
     * Each adjacent node is an endpoint of its edge, and it is this node
     * exactly when the edge is a loop on this node.
     */
    lemma AdjacentNodesEndpoints(i: int)
      requires edges.Some? && 0 <= i < |edges.value|
      ensures AdjacentNodes().Some?
      ensures var n := AdjacentNodes().value[i];
        var e := edges.value[i];
        (n == e.nodes.0 || n == e.nodes.1) &&
        (n == this <==> e.nodes == (this, this))
    {
    }
  }

  class Edge {
    const nodes: (Node, Node)
    const weight: real

    /** `Edge(node_a, node_b, weight=0)`: the endpoints in argument order. */
    constructor (nodeA: Node, nodeB: Node, weight: real := 0.0)
      ensures nodes == (nodeA, nodeB) && this.weight == weight
    {
      nodes := (nodeA, nodeB);
      this.weight := weight;
    }

    /**
     * The endpoint reached from `n`: the first endpoint when `n` is the
     * second one, the second endpoint otherwise (so a loop yields `n`);
     * from an endpoint of a non-loop edge it is the other endpoint.
     */
    function Far(n: Node): (r: Node)
      ensures r == nodes.0 || r == nodes.1
      ensures n == nodes.1 ==> r == nodes.0
      ensures n != nodes.1 ==> r == nodes.1
      ensures nodes.0 != nodes.1 && (n == nodes.0 || n == nodes.1) ==> r != n
    {
      if nodes.1 == n then nodes.0 else nodes.1
    }
  }
}
