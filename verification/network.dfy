/** Optional values, used for the result of the shortest-path library call. */
module Wrappers {
  datatype Option<+T> = None | Some(value: T)
}

/**
 * The network graph the load balancer reasons about (its `initial_graph`):
 * directed links with a capacity, the load currently carried and an OSPF cost,
 * plus paths over it, the two capacity filters of the base controller and the
 * contract of the default (Dijkstra) shortest-path computation.
 */
module Network {
  import opened Wrappers

  /** A router, a host or a subnet; a destination prefix is itself a node of the graph. */
  type Node = string
  type Prefix = Node
  /** A path is the sequence of nodes it visits. */
  type Path = seq<Node>

  datatype Edge = Edge(src: Node, dst: Node)
  datatype Link = Link(capacity: nat, used: nat, cost: nat)
  type Graph = map<Edge, Link>

  /** Bandwidth still available on a link. */
  function Spare(l: Link): int {
    l.capacity - l.used
  }

  /** The edges of a path: its consecutive pairs, `zip(p[:-1], p[1:])`. */
  function PathEdges(p: Path): (r: seq<Edge>)
    ensures |r| == if |p| == 0 then 0 else |p| - 1
    ensures forall i :: 0 <= i < |r| ==> r[i] == Edge(p[i], p[i + 1])
    decreases |p|
  {
    if |p| < 2 then [] else [Edge(p[0], p[1])] + PathEdges(p[1..])
  }

  /** Python's `p[:-1]`: the path without its last node. */
  function DropLast(p: Path): (r: Path)
    ensures |p| > 0 ==> r + [p[|p| - 1]] == p
    ensures |p| == 0 ==> r == []
  {
    if |p| == 0 then [] else p[..|p| - 1]
  }

  ghost predicate IsPath(g: Graph, p: Path) {
    |p| >= 1 && forall e :: e in PathEdges(p) ==> e in g
  }

  ghost predicate IsPathBetween(g: Graph, s: Node, t: Node, p: Path) {
    IsPath(g, p) && p[0] == s && p[|p| - 1] == t
  }

  ghost predicate IsSimple(p: Path) {
    forall i, j :: 0 <= i < j < |p| ==> p[i] != p[j]
  }

  /** Sum of the link costs along a sequence of edges of `g`. */
  function Cost(g: Graph, edges: seq<Edge>): nat
    requires forall e :: e in edges ==> e in g
  {
    if edges == [] then 0 else g[edges[0]].cost + Cost(g, edges[1..])
  }

  ghost function PathCost(g: Graph, p: Path): nat
    requires IsPath(g, p)
  {
    Cost(g, PathEdges(p))
  }

  /** A simple path from `s` to `t` of least cost among all paths from `s` to `t` in `g`. */
  ghost predicate IsShortestPath(g: Graph, s: Node, t: Node, p: Path) {
    && IsPathBetween(g, s, t, p)
    && IsSimple(p)
    && forall q :: IsPathBetween(g, s, t, q) ==> PathCost(g, p) <= PathCost(g, q)
  }

  /**
   * What the default Dijkstra computation may return: some least-cost path
   * (ties are not broken by any fixed rule), or no path at all exactly when
   * `t` cannot be reached from `s`.
   */
  ghost predicate ShortestPathResult(g: Graph, s: Node, t: Node, route: Option<Path>) {
    match route
    case Some(p) => IsShortestPath(g, s, t, p)
    case None => forall q :: !IsPathBetween(g, s, t, q)
  }

  /** `getNetworkWithoutFullEdges`: the links that can still carry `size` more. */
  function WithoutFullEdges(g: Graph, size: nat): (r: Graph)
    ensures r.Keys <= g.Keys
    ensures forall e :: e in r ==> r[e] == g[e] && Spare(g[e]) >= size
    ensures forall e :: e in g && Spare(g[e]) >= size ==> e in r
  {
    map e | e in g && Spare(g[e]) >= size :: g[e]
  }

  /** `getFullEdges`: the links that cannot carry `size` more. */
  function FullEdges(g: Graph, size: nat): (r: set<Edge>)
    ensures r !! WithoutFullEdges(g, size).Keys
    ensures r + WithoutFullEdges(g, size).Keys == g.Keys
  {
    set e | e in g && Spare(g[e]) < size
  }

  /**
   * The path the allocator commits to is congestion free: it is the path found
   * in the filtered graph minus its last (destination subnet) node, so each of
   * its edges is an edge of the found path and has room for the flow.
   */
  lemma CommittedPathIsCongestionFree(g: Graph, size: nat, p: Path)
    requires IsPath(WithoutFullEdges(g, size), p)
    ensures forall e :: e in PathEdges(DropLast(p)) ==>
              e in PathEdges(p) && e in g && Spare(g[e]) >= size
  {
    var c := DropLast(p);
    forall e | e in PathEdges(c)
      ensures e in PathEdges(p) && e in g && Spare(g[e]) >= size
    {
      var i :| 0 <= i < |PathEdges(c)| && PathEdges(c)[i] == e;
      assert c[i] == p[i] && c[i + 1] == p[i + 1];
      assert PathEdges(p)[i] == e;
    }
  }

  /** A node with no outgoing link cannot reach any other node. */
  lemma NoExitNoPath(g: Graph, s: Node, t: Node)
    requires s != t
    requires forall e :: e in g ==> e.src != s
    ensures forall q :: !IsPathBetween(g, s, t, q)
  {
    forall q
      ensures !IsPathBetween(g, s, t, q)
    {
      if |q| >= 2 {
        assert PathEdges(q)[0] == Edge(q[0], q[1]);
      }
    }
  }

  lemma EdgeOnPath(p: Path, i: nat)
    requires i < |p| - 1
    ensures Edge(p[i], p[i + 1]) in PathEdges(p)
  {
    assert PathEdges(p)[i] == Edge(p[i], p[i + 1]);
  }

  /** A path that reaches a node with no outgoing link ends there. */
  lemma PathEndsAtSink(g: Graph, q: Path, i: nat)
    requires IsPath(g, q) && i < |q|
    requires forall e :: e in g ==> e.src != q[i]
    ensures i == |q| - 1
  {
    if i < |q| - 1 {
      EdgeOnPath(q, i);
    }
  }
}
