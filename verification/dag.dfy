/**
 * The per-prefix forwarding DAG: every edge carries an `active` flag (it is
 * used for forwarding towards the prefix) and an `ongoing_flows` flag (some
 * flow to the same prefix is known to cross it). The module holds the
 * base controller's DAG helpers and the edit that the greedy algorithm makes
 * to a DAG when it forces a new path.
 */
module ForwardingDag {
  import opened Network

  datatype EdgeData = EdgeData(active: bool, ongoingFlows: bool)
  type Dag = map<Edge, EdgeData>

  /**
   * An edge's data once its `active` flag is set to `active`; an edge the DAG
   * does not hold yet is added, with no ongoing flows.
   */
  function Flagged(dag: Dag, e: Edge, active: bool): EdgeData {
    if e in dag then dag[e].(active := active) else EdgeData(active, false)
  }

  /** Sets the flag of each edge of `edges`, one after the other. */
  function SetEdges(dag: Dag, edges: seq<Edge>, active: bool): (r: Dag)
    ensures r.Keys == dag.Keys + set e | e in edges
    ensures forall e :: e in r ==> r[e] == if e in edges then Flagged(dag, e, active) else dag[e]
    decreases |edges|
  {
    if edges == [] then dag
    else SetEdges(dag[edges[0] := Flagged(dag, edges[0], active)], edges[1..], active)
  }

  /** All edges of all the given paths. */
  function EdgesOf(paths: seq<Path>): set<Edge>
    decreases |paths|
  {
    if paths == [] then {} else (set e | e in PathEdges(paths[0])) + EdgesOf(paths[1..])
  }

  /** An edge belongs to `EdgesOf(paths)` exactly when it is an edge of one of the paths. */
  lemma {:induction false} EdgesOfContains(paths: seq<Path>, e: Edge)
    ensures e in EdgesOf(paths) <==> exists p :: p in paths && e in PathEdges(p)
    decreases |paths|
  {
    if paths != [] {
      EdgesOfContains(paths[1..], e);
      if e in PathEdges(paths[0]) {
        assert paths[0] in paths;
      }
      if e in EdgesOf(paths[1..]) {
        var p :| p in paths[1..] && e in PathEdges(p);
        assert p in paths;
      }
      forall p | p in paths && e in PathEdges(p) ensures e in EdgesOf(paths) {
        if p != paths[0] {
          assert p in paths[1..];
        }
      }
    }
  }

  /**
   * `switchDagEdgesData(dag, paths, active=...)`: every consecutive edge of
   * every path in `paths` gets the flag `active`; nothing else changes.
   */
  function SwitchDagEdgesData(dag: Dag, paths: seq<Path>, active: bool): (r: Dag)
    ensures r.Keys == dag.Keys + EdgesOf(paths)
    ensures forall e :: e in r ==> r[e] == if e in EdgesOf(paths) then Flagged(dag, e, active) else dag[e]
    decreases |paths|
  {
    if paths == [] then dag
    else
      var first := SetEdges(dag, PathEdges(paths[0]), active);
      assert forall e :: Flagged(first, e, active) == Flagged(dag, e, active);
      SwitchDagEdgesData(first, paths[1..], active)
  }

  /** `getActiveEdges(dag, node)`: the active edges leaving `node`. */
  function ActiveEdges(dag: Dag, node: Node): set<Edge> {
    set e | e in dag && e.src == node && dag[e].active
  }

  /** `getActiveDag`: the sub-DAG of the active edges, which is what gets fibbed. */
  function ActiveDag(dag: Dag): (r: Dag)
    ensures r.Keys <= dag.Keys
    ensures forall e :: e in r ==> r[e] == dag[e] && r[e].active
    ensures forall e :: e in dag && dag[e].active ==> e in r
  {
    map e | e in dag && dag[e].active :: dag[e]
  }

  /**
   * Keeping only the active edges loses no forwarding decision: every node
   * has the same active next hops in the sub-DAG as in the full DAG, and the
   * sub-DAG is already its own active part.
   */
  lemma ActiveDagKeepsForwarding(dag: Dag, node: Node)
    ensures ActiveEdges(ActiveDag(dag), node) == ActiveEdges(dag, node)
    ensures ActiveDag(ActiveDag(dag)) == ActiveDag(dag)
  {
    var a := ActiveDag(dag);
    assert ActiveEdges(a, node) == ActiveEdges(dag, node) by {
      forall e | e in ActiveEdges(dag, node) ensures e in ActiveEdges(a, node) { }
    }
    assert ActiveDag(a) == a;
  }

  function Off(d: EdgeData): EdgeData {
    d.(active := false)
  }

  /**
   * The DAG after the edges leaving the nodes of `nodes` were switched off,
   * except those in `keep`.
   */
  function DeactivateOutEdges(dag: Dag, nodes: seq<Node>, keep: set<Edge>): Dag {
    map e | e in dag :: if e.src in nodes && e !in keep then Off(dag[e]) else dag[e]
  }

  /** The DAG after the removal loop: only the new path's own edges stay on around it. */
  function PruneOffPath(dag: Dag, path: Path): Dag {
    DeactivateOutEdges(dag, path, set e | e in PathEdges(path))
  }

  /** The DAG the greedy algorithm stores: pruned around `path`, then `path` switched on. */
  function Reroute(dag: Dag, path: Path): Dag {
    SwitchDagEdgesData(PruneOffPath(dag, path), [path], true)
  }

  /**
   * The removal loop: for each node of the new path, every active edge
   * leaving it that is not an edge of the new path is switched off.
   */
  method DeactivateOffPathEdges(dag0: Dag, path: Path) returns (dag: Dag)
    ensures dag == PruneOffPath(dag0, path)
  {
    var newPathEdges := set e | e in PathEdges(path);
    dag := dag0;
    for i := 0 to |path|
      invariant dag == DeactivateOutEdges(dag0, path[..i], newPathEdges)
    {
      dag := DeactivateNodeEdges(dag, path[i], newPathEdges);
      DeactivateOneMore(dag0, path[..i], path[i], newPathEdges);
      assert path[..i + 1] == path[..i] + [path[i]];
    }
    assert path[..|path|] == path;
  }

  /**
   * The inner loop for one node: each edge active out of `node` at the start
   * and not in `keep` is switched off, one edge at a time through
   * `SwitchDagEdgesData`.
   */
  method DeactivateNodeEdges(dag0: Dag, node: Node, keep: set<Edge>) returns (dag: Dag)
    ensures dag == DeactivateOutEdges(dag0, [node], keep)
  {
    var activeEdges := ActiveEdges(dag0, node);
    var todo := activeEdges;
    dag := dag0;
    while todo != {}
      invariant todo <= activeEdges
      invariant dag.Keys == dag0.Keys
      invariant forall e :: e in dag ==>
                  dag[e] == if e in activeEdges - todo && e !in keep then Off(dag0[e]) else dag0[e]
      decreases todo
    {
      var a :| a in todo;
      if a !in keep {
        SwitchOneEdge(dag, a, false);
        dag := SwitchDagEdgesData(dag, [[a.src, a.dst]], false);
      }
      todo := todo - {a};
    }
    forall e | e in dag
      ensures dag[e] == DeactivateOutEdges(dag0, [node], keep)[e]
    {
      if e.src == node && e !in keep && e !in activeEdges {
        assert !dag0[e].active;
      }
    }
  }

  /** Switching off around one more node extends the set of nodes handled. */
  lemma DeactivateOneMore(dag: Dag, nodes: seq<Node>, node: Node, keep: set<Edge>)
    ensures DeactivateOutEdges(DeactivateOutEdges(dag, nodes, keep), [node], keep)
         == DeactivateOutEdges(dag, nodes + [node], keep)
  {
  }

  /** Switching the one-edge path `[a.src, a.dst]` sets the flag of `a` alone. */
  lemma SwitchOneEdge(dag: Dag, a: Edge, active: bool)
    ensures SwitchDagEdgesData(dag, [[a.src, a.dst]], active) == dag[a := Flagged(dag, a, active)]
  {
    assert PathEdges([a.src, a.dst]) == [a];
    assert EdgesOf([[a.src, a.dst]]) == {a};
  }

  /**
   * One edge of the rerouted DAG: it is present when it was or when it is a
   * path edge; it is active exactly when it is a path edge or was active and
   * leaves a node off the path; its `ongoing_flows` flag is kept.
   */
  lemma RerouteEdge(dag: Dag, path: Path, e: Edge)
    ensures e in Reroute(dag, path) <==> e in dag || e in PathEdges(path)
    ensures e in Reroute(dag, path) ==>
              (Reroute(dag, path)[e].active <==>
                 e in PathEdges(path) || (e in dag && dag[e].active && e.src !in path))
    ensures e in dag ==> Reroute(dag, path)[e].ongoingFlows == dag[e].ongoingFlows
    ensures e in dag && e.src !in path ==> Reroute(dag, path)[e] == dag[e]
  {
    var onPath := e in PathEdges(path);
    if onPath {
      var j :| 0 <= j < |PathEdges(path)| && PathEdges(path)[j] == e;
      assert PathEdges(path)[j] == Edge(path[j], path[j + 1]);
      assert e.src == path[j];
      assert e.src in path;
    }
    var pruned := PruneOffPath(dag, path);
    assert pruned.Keys == dag.Keys;
    assert e in dag ==> pruned[e] == if e.src in path && !onPath then Off(dag[e]) else dag[e];
    assert EdgesOf([path]) == set x | x in PathEdges(path);
    var r := Reroute(dag, path);
    assert e in r ==> r[e] == if onPath then Flagged(pruned, e, true) else pruned[e];
  }

  /**
   * The shape of the rerouted DAG around a simple path: each path edge is
   * active and is the only active edge leaving its source node, the last
   * node has no active edge left, edges leaving nodes off the path are
   * untouched, and no `ongoing_flows` flag changes.
   */
  lemma RerouteShape(dag: Dag, path: Path)
    requires IsSimple(path)
    ensures Reroute(dag, path).Keys == dag.Keys + set e | e in PathEdges(path)
    ensures forall i :: 0 <= i < |path| - 1 ==>
              ActiveEdges(Reroute(dag, path), path[i]) == {Edge(path[i], path[i + 1])}
    ensures |path| > 0 ==> ActiveEdges(Reroute(dag, path), path[|path| - 1]) == {}
    ensures forall e :: e in dag && e.src !in path ==> Reroute(dag, path)[e] == dag[e]
    ensures forall e :: e in dag ==> Reroute(dag, path)[e].ongoingFlows == dag[e].ongoingFlows
  {
    RerouteKeysAndFlags(dag, path);
    forall i | 0 <= i < |path| - 1
      ensures ActiveEdges(Reroute(dag, path), path[i]) == {Edge(path[i], path[i + 1])}
    {
      ActiveOutOfPathNode(dag, path, i);
    }
    if |path| > 0 {
      ActiveOutOfLastNode(dag, path);
    }
  }

  lemma RerouteKeysAndFlags(dag: Dag, path: Path)
    ensures Reroute(dag, path).Keys == dag.Keys + set e | e in PathEdges(path)
    ensures forall e :: e in dag && e.src !in path ==> Reroute(dag, path)[e] == dag[e]
    ensures forall e :: e in dag ==> Reroute(dag, path)[e].ongoingFlows == dag[e].ongoingFlows
  {
    var r := Reroute(dag, path);
    forall e ensures e in r <==> e in dag || e in PathEdges(path) {
      RerouteEdge(dag, path, e);
    }
    forall e | e in dag
      ensures r[e].ongoingFlows == dag[e].ongoingFlows && (e.src !in path ==> r[e] == dag[e])
    {
      RerouteEdge(dag, path, e);
    }
  }

  lemma ActiveOutOfPathNode(dag: Dag, path: Path, i: nat)
    requires IsSimple(path) && i < |path| - 1
    ensures ActiveEdges(Reroute(dag, path), path[i]) == {Edge(path[i], path[i + 1])}
  {
    var r := Reroute(dag, path);
    var pe := Edge(path[i], path[i + 1]);
    assert PathEdges(path)[i] == pe;
    RerouteEdge(dag, path, pe);
    forall e | e in r && e.src == path[i] && r[e].active ensures e == pe {
      RerouteEdge(dag, path, e);
      var j :| 0 <= j < |PathEdges(path)| && PathEdges(path)[j] == e;
      assert PathEdges(path)[j] == Edge(path[j], path[j + 1]);
      assert path[j] == path[i];
    }
    SoleActiveEdge(r, path[i], pe);
  }

  lemma SoleActiveEdge(r: Dag, node: Node, pe: Edge)
    requires pe in r && r[pe].active && pe.src == node
    requires forall e :: e in r && e.src == node && r[e].active ==> e == pe
    ensures ActiveEdges(r, node) == {pe}
  {
  }

  lemma ActiveOutOfLastNode(dag: Dag, path: Path)
    requires IsSimple(path) && |path| > 0
    ensures ActiveEdges(Reroute(dag, path), path[|path| - 1]) == {}
  {
    var r := Reroute(dag, path);
    var last := path[|path| - 1];
    forall e | e in r && e.src == last ensures !r[e].active {
      RerouteEdge(dag, path, e);
      LastNodeStartsNoPathEdge(path, e);
    }
    NoActiveEdge(r, last);
  }

  lemma LastNodeStartsNoPathEdge(path: Path, e: Edge)
    requires IsSimple(path) && |path| > 0
    ensures e in PathEdges(path) ==> e.src != path[|path| - 1]
  {
    if e in PathEdges(path) {
      var j :| 0 <= j < |PathEdges(path)| && PathEdges(path)[j] == e;
      assert PathEdges(path)[j] == Edge(path[j], path[j + 1]);
      assert j < |path| - 1;
    }
  }

  lemma NoActiveEdge(r: Dag, node: Node)
    requires forall e :: e in r && e.src == node ==> !r[e].active
    ensures ActiveEdges(r, node) == {}
  {
  }

  /**
   * `c` is a cycle of active edges: a walk of at least one step, each along
   * an active edge, that ends where it starts.
   */
  ghost predicate IsActiveCycle(dag: Dag, c: seq<Node>) {
    && |c| > 1 && c[|c| - 1] == c[0]
    && forall i :: 0 <= i < |c| - 1 ==> Edge(c[i], c[i + 1]) in dag && dag[Edge(c[i], c[i + 1])].active
  }

  /** The active edges form no cycle, so forwarding along them never loops. */
  ghost predicate ActiveAcyclic(dag: Dag) {
    forall c :: !IsActiveCycle(dag, c)
  }

  /** A DAG with no edges has no active cycle. */
  lemma EmptyDagAcyclic(dag: Dag)
    requires dag == map[]
    ensures ActiveAcyclic(dag)
  {
    forall c ensures !IsActiveCycle(dag, c) {
      if |c| > 1 {
        assert Edge(c[0], c[1]) !in dag;
      }
    }
  }

  /**
   * The re-route keeps the active edges acyclic. Along a simple path each
   * node forwards only to the next one and the last node nowhere, so no
   * active cycle can visit the path; away from the path the edges are the
   * old DAG's.
   */
  lemma RerouteKeepsAcyclic(dag: Dag, path: Path)
    requires IsSimple(path) && ActiveAcyclic(dag)
    ensures ActiveAcyclic(Reroute(dag, path))
  {
    forall c ensures !IsActiveCycle(Reroute(dag, path), c) {
      if i :| 0 <= i < |c| && c[i] in path {
        CycleMeetingPathBreaks(dag, path, c, i);
      } else {
        CycleOffPath(dag, path, c);
      }
    }
  }

  /** An active cycle of the re-routed DAG that avoids the path was already one of the old DAG. */
  lemma CycleOffPath(dag: Dag, path: Path, c: seq<Node>)
    requires forall i :: 0 <= i < |c| ==> c[i] !in path
    ensures IsActiveCycle(Reroute(dag, path), c) ==> IsActiveCycle(dag, c)
  {
    if IsActiveCycle(Reroute(dag, path), c) {
      forall i | 0 <= i < |c| - 1 ensures Edge(c[i], c[i + 1]) in dag && dag[Edge(c[i], c[i + 1])].active {
        var e := Edge(c[i], c[i + 1]);
        PathEdgeLeavesPathNode(path, e);
        RerouteEdge(dag, path, e);
      }
    }
  }

  lemma PathEdgeLeavesPathNode(path: Path, e: Edge)
    ensures e in PathEdges(path) ==> e.src in path
  {
    if e in PathEdges(path) {
      var j :| 0 <= j < |PathEdges(path)| && PathEdges(path)[j] == e;
      assert PathEdges(path)[j] == Edge(path[j], path[j + 1]);
    }
  }

  /**
   * A closed walk that visits the path is no active cycle of the re-routed
   * DAG: from the furthest path node it visits, its next step is not active.
   */
  lemma CycleMeetingPathBreaks(dag: Dag, path: Path, c: seq<Node>, i: nat)
    requires IsSimple(path) && i < |c| && c[i] in path
    ensures !IsActiveCycle(Reroute(dag, path), c)
  {
    var r := Reroute(dag, path);
    if |c| > 1 && c[|c| - 1] == c[0] {
      var j :| 0 <= j < |path| && path[j] == c[i];
      var top, k := FurthestOnCycle(path, c, j, i);
      if k == |c| - 1 {
        k := 0;
      }
      var e := Edge(c[k], c[k + 1]);
      if top == |path| - 1 {
        ActiveOutOfLastNode(dag, path);
      } else {
        ActiveOutOfPathNode(dag, path, top);
        assert e != Edge(path[top], path[top + 1]);
      }
      assert e !in ActiveEdges(r, path[top]);
    }
  }

  /** The furthest node along `path` that `c` visits. */
  lemma {:induction false} FurthestOnCycle(path: Path, c: seq<Node>, j: nat, i: nat) returns (top: nat, k: nat)
    requires j < |path| && i < |c| && c[i] == path[j]
    ensures j <= top < |path| && k < |c| && c[k] == path[top]
    ensures forall m, q :: top < q < |path| && 0 <= m < |c| ==> c[m] != path[q]
    decreases |path| - j
  {
    if q, m :| j < q < |path| && 0 <= m < |c| && c[m] == path[q] {
      top, k := FurthestOnCycle(path, c, q, m);
    } else {
      top, k := j, i;
    }
  }
}
