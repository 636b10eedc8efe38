/**
 * The road-network entities of graphing/core.py. A node has a fixed id and
 * position and a list of incident edges that `Graph.add_edge` appends to; an
 * edge has a fixed id, endpoint pair and distance, and a list of the agents
 * on it. Ids come from the class-level counters `Node.id` and `Edge.id`.
 */
module GraphCore {
  import opened Ids
  import opened Agents

  class Node {
    const id: int
    const pos: (int, int)
    var edges: seq<Edge>

    /** `Node(x, y)`: the next node id, an empty edge list and the position. */
    constructor (ids: IdCounter, x: int, y: int)
      modifies ids
      ensures id == old(ids.next) && ids.next == old(ids.next) + 1
      ensures edges == [] && pos == (x, y)
    {
      id := ids.next;
      pos := (x, y);
      edges := [];
      new;
      ids.next := ids.next + 1;
    }
  }

  class Edge {
    const id: int
    const nodes: (Node, Node)
    const distance: int
    var agents: seq<Agent>

    /** `Edge(node_a, node_b, distance)`: the next edge id, the endpoints in argument order, no agents. */
    constructor (ids: IdCounter, nodeA: Node, nodeB: Node, distance: int)
      modifies ids
      ensures id == old(ids.next) && ids.next == old(ids.next) + 1
      ensures nodes == (nodeA, nodeB) && this.distance == distance && agents == []
    {
      id := ids.next;
      nodes := (nodeA, nodeB);
      this.distance := distance;
      agents := [];
      new;
      ids.next := ids.next + 1;
    }

    /**
     * The endpoint of this edge that is not `n`, by the rule graphing/graph.py
     * writes out when it walks a path back: the first endpoint if `n` is the
     * second one, the second endpoint otherwise. `Graph.shortest_edge_path`
     * calls this as `edge.get_adjacent_node(node)`.
     */
    function AdjacentNode(n: Node): (r: Node)
      ensures r == nodes.0 || r == nodes.1
      ensures n == nodes.1 ==> r == nodes.0
      ensures n == nodes.0 && n != nodes.1 ==> r == nodes.1
      ensures nodes.0 != nodes.1 && (n == nodes.0 || n == nodes.1) ==> r != n
    {
      if nodes.1 == n then nodes.0 else nodes.1
    }
  }
}
