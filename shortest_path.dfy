/**
 * The search of `Graph.shortest_edge_path` (graphing/graph.py), over a
 * snapshot of the graph taken when the search starts: the registered nodes
 * and edges by id and each registered node's edge list. The search reads
 * nothing else and changes nothing, so the snapshot stands for the graph for
 * the whole call.
 *
 * The search is Dijkstra's algorithm over the integer edge distances with a
 * binary heap of (distance, node id) entries and lazy deletion of stale
 * entries, followed by a walk back along the recorded predecessor edges.
 */
module ShortestPaths {
  import opened GraphCore

  /** The sequence reversed, as `list.reverse` leaves it. */
  function Reversed<T>(s: seq<T>): (r: seq<T>)
    ensures |r| == |s|
  {
    if s == [] then [] else [s[|s| - 1]] + Reversed(s[..|s| - 1])
  }

  lemma ReversedSnoc<T>(s: seq<T>, x: T)
    ensures Reversed(s + [x]) == [x] + Reversed(s)
  {
    assert (s + [x])[..|s|] == s;
  }

  /** The order heapq compares its (distance, node id) entries in. */
  predicate LexLeq(a: (int, int), b: (int, int))
  {
    a.0 < b.0 || (a.0 == b.0 && a.1 <= b.1)
  }

  /** `top` is a least entry of `pq` and `rest` is `pq` with one occurrence of `top` taken out. */
  ghost predicate Popped(pq: seq<(int, int)>, top: (int, int), rest: seq<(int, int)>)
  {
    top in pq && (forall i :: 0 <= i < |pq| ==> LexLeq(top, pq[i])) &&
    |rest| == |pq| - 1 && multiset(rest) == multiset(pq) - multiset{top} &&
    (forall y :: y in rest ==> y in pq) &&
    (forall y :: y != top ==> (y in rest <==> y in pq))
  }

  /**
   * `heapq.heappop`: take out the least entry. The heap's array layout is
   * not modelled, only which entry comes out and what stays.
   */
  method HeapPop(pq: seq<(int, int)>) returns (top: (int, int), rest: seq<(int, int)>)
    requires pq != []
    ensures Popped(pq, top, rest)
  {
    var m := 0;
    for i := 1 to |pq|
      invariant 0 <= m < |pq|
      invariant forall k :: 0 <= k < i ==> LexLeq(pq[m], pq[k])
    {
      if !LexLeq(pq[m], pq[i]) {
        m := i;
      }
    }
    top := pq[m];
    rest := pq[..m] + pq[m + 1..];
    assert pq == pq[..m] + [top] + pq[m + 1..];
    assert multiset(pq) == multiset(pq[..m]) + multiset{top} + multiset(pq[m + 1..]);
    forall y | true
      ensures y in rest <==> y in multiset(rest)
      ensures y in pq <==> y in multiset(pq)
    {
    }
  }

  /** The graph as the search sees it: nodes and edges by id, and each node's edge list. */
  datatype Net = Net(nodes: map<int, Node>, edges: map<int, Edge>, adj: map<int, seq<Edge>>)
  {
    /** Nodes and edges are filed under their own ids. */
    ghost predicate Keyed()
    {
      (forall k :: k in nodes ==> nodes[k].id == k) &&
      (forall k :: k in edges ==> edges[k].id == k)
    }

    /**
     * Every node has an edge list, and each edge listed at a node is a
     * registered edge with that node as an endpoint and both endpoints
     * registered.
     */
    ghost predicate Closed()
    {
      adj.Keys == nodes.Keys &&
      forall k, e :: k in adj && e in adj[k] ==>
        k in nodes && e.id in edges && edges[e.id] == e &&
        (e.nodes.0 == nodes[k] || e.nodes.1 == nodes[k]) &&
        e.nodes.0.id in nodes && nodes[e.nodes.0.id] == e.nodes.0 &&
        e.nodes.1.id in nodes && nodes[e.nodes.1.id] == e.nodes.1
    }

    /** No listed edge has a negative distance. */
    ghost predicate NonNegative()
    {
      forall k, e :: k in adj && e in adj[k] ==> e.distance >= 0
    }

    /**
     * `p` is a walk from node u to node v: each edge id names a registered
     * edge listed at the current node, and the walk continues at the edge's
     * other endpoint.
     */
    ghost predicate IsPath(u: int, p: seq<int>, v: int)
      decreases |p|
    {
      u in nodes && u in adj &&
      if p == [] then u == v
      else
        p[0] in edges && edges[p[0]] in adj[u] &&
        IsPath(edges[p[0]].AdjacentNode(nodes[u]).id, p[1..], v)
    }

    /** The summed distance of the registered edges of a path. */
    ghost function PathLength(p: seq<int>): int
    {
      if p == [] then 0 else (if p[0] in edges then edges[p[0]].distance else 0) + PathLength(p[1..])
    }

    ghost predicate Reachable(u: int, v: int)
    {
      exists p :: IsPath(u, p, v)
    }

    /** Every edge out of u is relaxed with respect to the estimates. */
    ghost predicate Relaxed(u: int, dist: map<int, int>)
    {
      u in nodes && u in adj && u in dist &&
      forall e :: e in adj[u] ==>
        e.AdjacentNode(nodes[u]).id in dist && dist[e.AdjacentNode(nodes[u]).id] <= dist[u] + e.distance
    }

    ghost predicate AllRelaxed(us: set<int>, dist: map<int, int>)
    {
      forall u :: u in us ==> Relaxed(u, dist)
    }

    /**
     * When every estimated node is relaxed, the estimates are lower bounds:
     * whatever a walk from an estimated node reaches is estimated, at most
     * the start's estimate plus the walk's length.
     */
    lemma {:induction false} RelaxedBound(dist: map<int, int>, u: int, p: seq<int>, v: int)
      requires AllRelaxed(dist.Keys, dist)
      requires u in dist && IsPath(u, p, v)
      ensures v in dist && dist[v] <= dist[u] + PathLength(p)
      decreases |p|
    {
      if p != [] {
        var e := edges[p[0]];
        var w := e.AdjacentNode(nodes[u]).id;
        assert Relaxed(u, dist);
        RelaxedBound(dist, w, p[1..], v);
      }
    }

    // The search state between two relaxations: `dist` holds the finite
    // entries of `distances`, `prev` the non-None entries of `previous_edge`.
    // The ghost state records the settled nodes, the node each predecessor
    // edge was relaxed from, the order nodes were settled in, and the last
    // popped distance.

    /** Estimates, predecessor edges and settled nodes fit together. */
    ghost predicate Core(start: int, dist: map<int, int>, prev: map<int, int>, settled: set<int>,
                         from: map<int, int>, rank: map<int, nat>, nextRank: nat, low: int)
    {
      start in dist && dist[start] == 0 && low >= 0 &&
      settled <= dist.Keys && dist.Keys <= nodes.Keys &&
      (forall u :: u in settled ==> dist[u] <= low) &&
      prev.Keys == dist.Keys - {start} && from.Keys == prev.Keys &&
      rank.Keys == settled && (forall u :: u in settled ==> rank[u] < nextRank) &&
      // a predecessor edge leads back to a node settled earlier
      (forall v :: v in prev ==>
        v in from && v in dist && v in nodes && from[v] in settled && from[v] in dist && from[v] in nodes &&
        from[v] in adj && from[v] != v &&
        prev[v] in edges && edges[prev[v]] in adj[from[v]] &&
        edges[prev[v]].AdjacentNode(nodes[from[v]]) == nodes[v] &&
        dist[v] == dist[from[v]] + edges[prev[v]].distance &&
        (v in settled ==> rank[from[v]] < rank[v]))
    }

    /** Queue entries name estimated nodes, bound their estimates from above and lie above the last pop. */
    ghost predicate Queued(pq: seq<(int, int)>, dist: map<int, int>, low: int)
    {
      forall i :: 0 <= i < |pq| ==> pq[i].1 in dist && pq[i].0 >= dist[pq[i].1] && pq[i].0 >= low
    }

    /** An unsettled node waits in the queue with its current estimate. */
    ghost predicate Pending(dist: map<int, int>, settled: set<int>, pq: seq<(int, int)>)
    {
      forall v :: v in dist && v !in settled ==> (dist[v], v) in pq
    }

    /** The state the search loop keeps between two pops. */
    ghost predicate Inv(start: int, dist: map<int, int>, prev: map<int, int>, pq: seq<(int, int)>, settled: set<int>,
                        from: map<int, int>, rank: map<int, nat>, nextRank: nat, low: int)
    {
      Core(start, dist, prev, settled, from, rank, nextRank, low) &&
      Queued(pq, dist, low) && Pending(dist, settled, pq) && AllRelaxed(settled, dist)
    }

    /** The state in which the edges of the settled node `cur`, estimated at `d`, are relaxed. */
    ghost predicate RelaxReady(start: int, dist: map<int, int>, prev: map<int, int>, pq: seq<(int, int)>, settled: set<int>,
                               from: map<int, int>, rank: map<int, nat>, nextRank: nat, d: int, cur: int)
    {
      Core(start, dist, prev, settled, from, rank, nextRank, d) &&
      Queued(pq, dist, d) && Pending(dist, settled, pq) && AllRelaxed(settled - {cur}, dist) &&
      cur in settled && cur in dist && cur in nodes && cur in adj && dist[cur] == d
    }

    /** The first j edges of node u are relaxed for u estimated at d. */
    ghost predicate RelaxedPrefix(u: int, j: int, d: int, dist: map<int, int>)
    {
      u in nodes && u in adj && 0 <= j <= |adj[u]| &&
      forall i :: 0 <= i < j ==>
        adj[u][i].AdjacentNode(nodes[u]).id in dist && dist[adj[u][i].AdjacentNode(nodes[u]).id] <= d + adj[u][i].distance
    }

    /** Popping the least entry raises the last-pop mark to it and keeps the queue facts. */
    lemma PopStep(dist: map<int, int>, settled: set<int>, pq: seq<(int, int)>, rest: seq<(int, int)>,
                  top: (int, int), low: int)
      requires Queued(pq, dist, low) && Pending(dist, settled, pq) && Popped(pq, top, rest)
      ensures top.1 in dist && top.0 >= dist[top.1] && top.0 >= low
      ensures Queued(rest, dist, top.0)
      ensures Pending(dist, settled + {top.1}, rest)
      ensures top.0 > dist[top.1] ==> Pending(dist, settled, rest)
    {
      forall i | 0 <= i < |rest|
        ensures rest[i].1 in dist && rest[i].0 >= dist[rest[i].1] && rest[i].0 >= top.0
      {
        assert rest[i] in pq;
      }
    }

    /** Raising the last-pop mark keeps the search state. */
    lemma RaiseLow(start: int, dist: map<int, int>, prev: map<int, int>, settled: set<int>,
                   from: map<int, int>, rank: map<int, nat>, nextRank: nat, low: int, low': int)
      requires Core(start, dist, prev, settled, from, rank, nextRank, low) && low <= low'
      ensures Core(start, dist, prev, settled, from, rank, nextRank, low')
    {
    }

    /** Settling the node just popped at its estimate. */
    lemma Settle(start: int, dist: map<int, int>, prev: map<int, int>, settled: set<int>,
                 from: map<int, int>, rank: map<int, nat>, nextRank: nat, low: int, cur: int)
      requires Core(start, dist, prev, settled, from, rank, nextRank, low)
      requires cur in dist && cur !in settled && dist[cur] == low
      ensures Core(start, dist, prev, settled + {cur}, from, rank[cur := nextRank], nextRank + 1, low)
    {
    }

    /** Settling a new node leaves the other settled nodes relaxed and one node fewer to settle. */
    lemma BeginFresh(dist: map<int, int>, settled: set<int>, cur: int)
      requires AllRelaxed(settled, dist) && cur in nodes && cur !in settled
      ensures AllRelaxed(settled + {cur} - {cur}, dist)
      ensures |nodes.Keys - (settled + {cur})| < |nodes.Keys - settled|
    {
      assert settled + {cur} - {cur} == settled;
      assert nodes.Keys - (settled + {cur}) == (nodes.Keys - settled) - {cur};
    }

    /** A node popped again at its settled estimate is relaxed already. */
    lemma BeginSettled(dist: map<int, int>, pq: seq<(int, int)>, settled: set<int>, cur: int)
      requires Pending(dist, settled + {cur}, pq) && AllRelaxed(settled, dist) && cur in settled
      ensures Pending(dist, settled, pq) && AllRelaxed(settled - {cur}, dist) && Relaxed(cur, dist)
    {
      assert settled + {cur} == settled;
    }

    /**
     * One pop of the search loop: a stale entry leaves the state as it was
     * (bar the queue); a current one settles its node if it is new, ready
     * for its edges to be relaxed.
     */
    lemma Pop(start: int, dist: map<int, int>, prev: map<int, int>, pq: seq<(int, int)>, rest: seq<(int, int)>,
              top: (int, int), settled: set<int>, from: map<int, int>, rank: map<int, nat>, nextRank: nat, low: int)
      requires Closed() && Inv(start, dist, prev, pq, settled, from, rank, nextRank, low) && Popped(pq, top, rest)
      ensures top.1 in dist && top.1 in adj && top.0 >= dist[top.1] && |rest| < |pq|
      ensures top.0 > dist[top.1] ==> Inv(start, dist, prev, rest, settled, from, rank, nextRank, top.0)
      ensures top.0 <= dist[top.1] && top.1 in settled ==>
        RelaxReady(start, dist, prev, rest, settled, from, rank, nextRank, top.0, top.1) && Relaxed(top.1, dist)
      ensures top.0 <= dist[top.1] && top.1 !in settled ==>
        RelaxReady(start, dist, prev, rest, settled + {top.1}, from, rank[top.1 := nextRank], nextRank + 1, top.0, top.1) &&
        |nodes.Keys - (settled + {top.1})| < |nodes.Keys - settled|
    {
      PopStep(dist, settled, pq, rest, top, low);
      RaiseLow(start, dist, prev, settled, from, rank, nextRank, low, top.0);
      if top.0 <= dist[top.1] {
        if top.1 in settled {
          BeginSettled(dist, rest, settled, top.1);
        } else {
          Settle(start, dist, prev, settled, from, rank, nextRank, top.0, top.1);
          BeginFresh(dist, settled, top.1);
        }
      }
    }

    /** With the queue empty, every estimated node is settled. */
    lemma SearchDone(start: int, dist: map<int, int>, prev: map<int, int>, pq: seq<(int, int)>, settled: set<int>,
                     from: map<int, int>, rank: map<int, nat>, nextRank: nat, low: int)
      requires Inv(start, dist, prev, pq, settled, from, rank, nextRank, low) && pq == []
      ensures settled == dist.Keys
      ensures Core(start, dist, prev, dist.Keys, from, rank, nextRank, low) && AllRelaxed(dist.Keys, dist)
    {
      forall v | v in dist
        ensures v in settled
      {
        assert (dist[v], v) !in pq;
      }
    }

    /** Lowering the estimate of a neighbour of the settled node `cur`. */
    lemma Improve(start: int, dist: map<int, int>, prev: map<int, int>, pq: seq<(int, int)>,
                  settled: set<int>, from: map<int, int>, rank: map<int, nat>, nextRank: nat, low: int,
                  cur: int, j: int, v: int, nd: int)
      requires NonNegative() && Closed()
      requires RelaxReady(start, dist, prev, pq, settled, from, rank, nextRank, low, cur)
      requires RelaxedPrefix(cur, j, low, dist) && j < |adj[cur]|
      requires v == adj[cur][j].AdjacentNode(nodes[cur]).id && nd == low + adj[cur][j].distance
      requires v !in dist || nd < dist[v]
      ensures RelaxReady(start, dist[v := nd], prev[v := adj[cur][j].id], pq + [(nd, v)], settled, from[v := cur],
                         rank, nextRank, low, cur)
      ensures RelaxedPrefix(cur, j + 1, low, dist[v := nd])
    {
      var e := adj[cur][j];
      assert e in adj[cur];
      ImproveCore(start, dist, prev, settled, from, rank, nextRank, low, cur, e, v, nd);
      ImproveQueue(dist, pq, settled, low, v, nd);
      ImproveRelaxed(dist, settled, low, cur, j, v, nd);
    }

    /** The estimates and predecessor edges stay consistent when `v` is reached through `e`. */
    lemma ImproveCore(start: int, dist: map<int, int>, prev: map<int, int>, settled: set<int>,
                      from: map<int, int>, rank: map<int, nat>, nextRank: nat, low: int, cur: int, e: Edge, v: int, nd: int)
      requires NonNegative() && Closed()
      requires Core(start, dist, prev, settled, from, rank, nextRank, low)
      requires cur in settled && cur in dist && cur in adj && dist[cur] == low
      requires e in adj[cur] && v == e.AdjacentNode(nodes[cur]).id && nd == low + e.distance
      requires v !in dist || nd < dist[v]
      ensures v !in settled && v != start
      ensures Core(start, dist[v := nd], prev[v := e.id], settled, from[v := cur], rank, nextRank, low)
    {
      assert e.distance >= 0;
      assert nodes[v] == e.AdjacentNode(nodes[cur]);
    }

    /** The queue facts survive lowering the estimate of the unsettled `v` and pushing its entry. */
    lemma ImproveQueue(dist: map<int, int>, pq: seq<(int, int)>, settled: set<int>, low: int, v: int, nd: int)
      requires Queued(pq, dist, low) && Pending(dist, settled, pq)
      requires v !in settled && nd >= low
      ensures Queued(pq + [(nd, v)], dist[v := nd], low) || (v in dist && nd >= dist[v])
      ensures Pending(dist[v := nd], settled, pq + [(nd, v)])
    {
      var dist' := dist[v := nd];
      var pq' := pq + [(nd, v)];
      forall x | x in dist' && x !in settled
        ensures (dist'[x], x) in pq'
      {
        if x != v {
          assert (dist[x], x) in pq;
        } else {
          assert pq'[|pq|] == (nd, v);
        }
      }
      if v !in dist || nd < dist[v] {
        forall i | 0 <= i < |pq'|
          ensures pq'[i].1 in dist' && pq'[i].0 >= dist'[pq'[i].1] && pq'[i].0 >= low
        {
          if i < |pq| {
            assert pq'[i] == pq[i];
          }
        }
      }
    }

    /** Lowering an unsettled estimate keeps the other settled nodes and the prefix relaxed. */
    lemma ImproveRelaxed(dist: map<int, int>, settled: set<int>, low: int, cur: int, j: int, v: int, nd: int)
      requires AllRelaxed(settled - {cur}, dist) && RelaxedPrefix(cur, j, low, dist) && j < |adj[cur]|
      requires v !in settled
      requires v == adj[cur][j].AdjacentNode(nodes[cur]).id && nd == low + adj[cur][j].distance
      requires v !in dist || nd < dist[v]
      ensures AllRelaxed(settled - {cur}, dist[v := nd])
      ensures RelaxedPrefix(cur, j + 1, low, dist[v := nd])
    {
      var dist' := dist[v := nd];
      forall u | u in settled - {cur}
        ensures Relaxed(u, dist')
      {
        assert Relaxed(u, dist);
      }
      forall i | 0 <= i < j + 1
        ensures adj[cur][i].AdjacentNode(nodes[cur]).id in dist' &&
                dist'[adj[cur][i].AdjacentNode(nodes[cur]).id] <= low + adj[cur][i].distance
      {
        if i < j {
          var w := adj[cur][i].AdjacentNode(nodes[cur]).id;
          assert w in dist && dist[w] <= low + adj[cur][i].distance;
        }
      }
    }

    /** An edge whose far end is estimated low enough already joins the relaxed prefix. */
    lemma Skip(dist: map<int, int>, cur: int, j: int, d: int)
      requires RelaxedPrefix(cur, j, d, dist) && j < |adj[cur]|
      requires adj[cur][j].AdjacentNode(nodes[cur]).id in dist
      requires dist[adj[cur][j].AdjacentNode(nodes[cur]).id] <= d + adj[cur][j].distance
      ensures RelaxedPrefix(cur, j + 1, d, dist)
    {
    }

    /** Once every edge of `cur` has been looked at, `cur` is relaxed and the loop state is restored. */
    lemma FinishNode(start: int, dist: map<int, int>, prev: map<int, int>, pq: seq<(int, int)>,
                     settled: set<int>, from: map<int, int>, rank: map<int, nat>, nextRank: nat, d: int, cur: int)
      requires RelaxReady(start, dist, prev, pq, settled, from, rank, nextRank, d, cur)
      requires RelaxedPrefix(cur, |adj[cur]|, d, dist)
      ensures Inv(start, dist, prev, pq, settled, from, rank, nextRank, d)
    {
      var es := adj[cur];
      forall e | e in es
        ensures e.AdjacentNode(nodes[cur]).id in dist && dist[e.AdjacentNode(nodes[cur]).id] <= dist[cur] + e.distance
      {
        var i :| 0 <= i < |es| && es[i] == e;
      }
      assert Relaxed(cur, dist);
      assert settled == (settled - {cur}) + {cur};
    }

    /**
     * Walking back over a predecessor edge by ids (graphing/graph.py:151)
     * returns to the node the edge was relaxed from.
     */
    lemma WalkBackStep(e: Edge, x: int, v: int)
      requires Keyed() && Closed()
      requires x in nodes && v in nodes && x != v && x in adj
      requires e in adj[x] && e.AdjacentNode(nodes[x]) == nodes[v]
      ensures (if e.nodes.1.id == v then e.nodes.0.id else e.nodes.1.id) == x
    {
    }

    /** One step of the walk back keeps a shortest tail and lowers the settling rank. */
    lemma BackStep(start: int, end: int, dist: map<int, int>, prev: map<int, int>,
                   from: map<int, int>, rank: map<int, nat>, nextRank: nat, low: int, current: int, path: seq<int>)
      requires Keyed() && Closed()
      requires Core(start, dist, prev, dist.Keys, from, rank, nextRank, low)
      requires current in prev && end in dist
      requires IsPath(current, Reversed(path), end) && dist[end] == dist[current] + PathLength(Reversed(path))
      ensures prev[current] in edges
      ensures var e := edges[prev[current]];
        var next := if e.nodes.1.id == current then e.nodes.0.id else e.nodes.1.id;
        next in nodes && next in dist && next in rank && current in rank && rank[next] < rank[current] &&
        IsPath(next, Reversed(path + [prev[current]]), end) &&
        dist[end] == dist[next] + PathLength(Reversed(path + [prev[current]]))
    {
      var e := edges[prev[current]];
      var x := from[current];
      WalkBackStep(e, x, current);
      ReversedSnoc(path, prev[current]);
      assert ([prev[current]] + Reversed(path))[1..] == Reversed(path);
    }
  }

  /**
   * The relaxation loop of `shortest_edge_path` for one popped node `cur`
   * at its current estimate `d`: every edge of the node whose far end gets
   * a strictly shorter estimate records the edge and pushes the new entry.
   */
  method RelaxEdges(g: Net, start: int, cur: int, d: int, dist: map<int, int>, prev: map<int, int>, pq: seq<(int, int)>,
                    ghost settled: set<int>, ghost from: map<int, int>, ghost rank: map<int, nat>, ghost nextRank: nat)
    returns (dist': map<int, int>, prev': map<int, int>, pq': seq<(int, int)>, ghost from': map<int, int>)
    requires g.NonNegative() && g.Closed()
    requires g.RelaxReady(start, dist, prev, pq, settled, from, rank, nextRank, d, cur)
    ensures g.Inv(start, dist', prev', pq', settled, from', rank, nextRank, d)
    ensures g.Relaxed(cur, dist) ==> dist' == dist && pq' == pq
  {
    var node := g.nodes[cur];
    var es := g.adj[cur];
    dist', prev', pq', from' := dist, prev, pq, from;
    ghost var wasRelaxed := g.Relaxed(cur, dist);
    var j := 0;
    while j < |es|
      invariant 0 <= j <= |es|
      invariant g.RelaxReady(start, dist', prev', pq', settled, from', rank, nextRank, d, cur)
      invariant g.RelaxedPrefix(cur, j, d, dist')
      invariant wasRelaxed ==> dist' == dist && pq' == pq
    {
      var edge := es[j];
      var neighbor := edge.AdjacentNode(node);
      var newDist := d + edge.distance;
      if neighbor.id !in dist' || newDist < dist'[neighbor.id] {
        g.Improve(start, dist', prev', pq', settled, from', rank, nextRank, d, cur, j, neighbor.id, newDist);
        dist' := dist'[neighbor.id := newDist];
        prev' := prev'[neighbor.id := edge.id];
        from' := from'[neighbor.id := cur];
        pq' := pq' + [(newDist, neighbor.id)];
      } else {
        g.Skip(dist', cur, j, d);
      }
      j := j + 1;
    }
    g.FinishNode(start, dist', prev', pq', settled, from', rank, nextRank, d, cur);
  }

  /**
   * One round of the search loop: pop the least entry; unless it is stale,
   * settle its node and relax the node's edges. Either one more node is
   * settled or the queue shrinks.
   */
  method SearchStep(g: Net, start: int, dist: map<int, int>, prev: map<int, int>, pq: seq<(int, int)>,
                    ghost settled: set<int>, ghost from: map<int, int>, ghost rank: map<int, nat>,
                    ghost nextRank: nat, ghost low: int)
    returns (dist': map<int, int>, prev': map<int, int>, pq': seq<(int, int)>,
             ghost settled': set<int>, ghost from': map<int, int>, ghost rank': map<int, nat>,
             ghost nextRank': nat, ghost low': int)
    requires g.Closed() && g.NonNegative() && pq != []
    requires g.Inv(start, dist, prev, pq, settled, from, rank, nextRank, low)
    ensures g.Inv(start, dist', prev', pq', settled', from', rank', nextRank', low')
    ensures |g.nodes.Keys - settled'| < |g.nodes.Keys - settled| || (settled' == settled && |pq'| < |pq|)
  {
    var top, rest := HeapPop(pq);
    g.Pop(start, dist, prev, pq, rest, top, settled, from, rank, nextRank, low);
    var (d, cur) := top;
    dist', prev', pq', settled', from', rank', nextRank', low' := dist, prev, rest, settled, from, rank, nextRank, d;
    if d <= dist[cur] {
      if cur !in settled {
        settled', rank', nextRank' := settled + {cur}, rank[cur := nextRank], nextRank + 1;
      }
      dist', prev', pq', from' := RelaxEdges(g, start, cur, d, dist, prev, rest, settled', from, rank', nextRank');
    }
  }

  /**
   * The search half of `shortest_edge_path`: pop the least queue entry,
   * skip it when it is stale, otherwise relax the node's edges, until the
   * queue is empty. On exit every estimated node is settled and relaxed.
   */
  method Search(g: Net, start: int) returns (dist: map<int, int>, prev: map<int, int>,
                                             ghost from: map<int, int>, ghost rank: map<int, nat>,
                                             ghost nextRank: nat, ghost low: int)
    requires g.Closed() && g.NonNegative() && start in g.nodes
    ensures g.Core(start, dist, prev, dist.Keys, from, rank, nextRank, low)
    ensures g.AllRelaxed(dist.Keys, dist)
  {
    dist, prev := map[start := 0], map[];
    var pq: seq<(int, int)> := [(0, start)];
    ghost var settled: set<int> := {};
    from, rank, nextRank, low := map[], map[], 0, 0;
    while pq != []
      invariant g.Inv(start, dist, prev, pq, settled, from, rank, nextRank, low)
      decreases |g.nodes.Keys - settled|, |pq|
    {
      dist, prev, pq, settled, from, rank, nextRank, low :=
        SearchStep(g, start, dist, prev, pq, settled, from, rank, nextRank, low);
    }
    g.SearchDone(start, dist, prev, pq, settled, from, rank, nextRank, low);
  }

  /**
   * The reconstruction half of `shortest_edge_path`: from the end, follow
   * the predecessor edges back to the start, then reverse. An end without
   * an estimate gives the empty path.
   */
  method WalkBack(g: Net, start: int, end: int, dist: map<int, int>, prev: map<int, int>,
                  ghost from: map<int, int>, ghost rank: map<int, nat>, ghost nextRank: nat, ghost low: int)
    returns (path: seq<int>)
    requires g.Keyed() && g.Closed() && end in g.nodes
    requires g.Core(start, dist, prev, dist.Keys, from, rank, nextRank, low)
    ensures start == end ==> path == []
    ensures end !in dist ==> path == []
    ensures end in dist ==> g.IsPath(start, path, end) && g.PathLength(path) == dist[end]
  {
    path := [];
    var current := end;
    while current != start
      invariant current in g.nodes
      invariant current == end || current in dist
      invariant current == end ==> path == []
      invariant current in dist ==>
        (end in dist && g.IsPath(current, Reversed(path), end) &&
         dist[end] == dist[current] + g.PathLength(Reversed(path)))
      decreases if current in rank then rank[current] else nextRank
    {
      if current !in prev {
        return [];
      }
      var edgeId := prev[current];
      g.BackStep(start, end, dist, prev, from, rank, nextRank, low, current, path);
      path := path + [edgeId];
      var edge := g.edges[edgeId];
      current := if edge.nodes.1.id == current then edge.nodes.0.id else edge.nodes.1.id;
    }
    path := Reversed(path);
  }

  /**
   * The whole search between two registered nodes: empty when they agree
   * or the end cannot be reached, otherwise a walk from start to end no
   * longer than any other.
   */
  method ShortestPath(g: Net, start: int, end: int) returns (path: seq<int>)
    requires g.Keyed() && g.Closed() && g.NonNegative()
    requires start in g.nodes && end in g.nodes
    ensures start == end ==> path == []
    ensures !g.Reachable(start, end) ==> path == []
    ensures g.Reachable(start, end) ==>
      g.IsPath(start, path, end) && forall p :: g.IsPath(start, p, end) ==> g.PathLength(path) <= g.PathLength(p)
  {
    var dist, prev, from, rank, nextRank, low := Search(g, start);
    forall p | g.IsPath(start, p, end)
      ensures end in dist && dist[end] <= g.PathLength(p)
    {
      g.RelaxedBound(dist, start, p, end);
    }
    path := WalkBack(g, start, end, dist, prev, from, rank, nextRank, low);
  }
}
