/**
 * The allocation step of the simple-path load balancer as a function of the
 * controller's state: admission against the current paths, the greedy
 * re-routing with its fallback, the southbound push and the record in the
 * allocation table. The class in module LoadBalancer is proved against these
 * functions; the lemmas here state what they guarantee.
 */
module Allocation {
  import opened Wrappers
  import opened Network
  import opened ForwardingDag

  /**
   * A newly observed flow: its source and destination prefixes, the router
   * its source is attached to, and its estimated size.
   */
  datatype Flow = Flow(srcPrefix: Prefix, dstPrefix: Prefix, ingress: Node, size: nat)

  /** A routing lie (fake LSA) that the southbound manager injected for a prefix. */
  datatype Lie = Lie(prefix: Prefix, fakeNode: Node, cost: nat)

  /** Destination prefix -> flow -> the paths the flow is allocated to. */
  type AllocationTable = map<Prefix, map<Flow, seq<Path>>>

  /** The state-changing actions the controller performs, in the order it performs them. */
  datatype Action =
    | StoredDag(prefix: Prefix, dag: Dag)
    | RemovedLies(lies: set<Lie>)
    | InstalledFwdDag(prefix: Prefix, dag: Dag)
    | Refreshed
    | Recorded(prefix: Prefix, flow: Flow, paths: seq<Path>)

  /** How a flow was placed. `ongoingFullEdges` is what the source only logs. */
  datatype Decision = Admitted | Fallback | Rerouted(path: Path, ongoingFullEdges: set<Edge>)

  /**
   * The controller's state together with the southbound manager's: the
   * per-prefix DAG store, the allocation table, the DAGs handed to the
   * southbound manager (`fwd_dags`), its lies, how often it was refreshed,
   * and the trace of actions.
   */
  datatype State = State(
    dags: map<Prefix, Dag>,
    allocations: AllocationTable,
    fwdDags: map<Prefix, Dag>,
    lies: set<Lie>,
    refreshes: nat,
    trace: seq<Action>)

  /** `getCurrentDag`: the DAG stored for a prefix (empty when none is stored). */
  function CurrentDag(dags: map<Prefix, Dag>, p: Prefix): Dag {
    if p in dags then dags[p] else map[]
  }

  /** `getLiesFromPrefix`: the lies injected for prefix `p`. */
  function LiesFromPrefix(lies: set<Lie>, p: Prefix): set<Lie> {
    set l | l in lies && l.prefix == p
  }

  /**
   * `canAllocateFlow`: there is at least one current path, and every link of
   * every current path has room for the flow.
   */
  predicate CanAllocateFlow(g: Graph, flow: Flow, paths: seq<Path>) {
    && |paths| > 0
    && forall p :: p in paths ==> forall e :: e in PathEdges(p) ==> e in g && Spare(g[e]) >= flow.size
  }

  /** The graph once `size` is reserved on each link of `edges`. */
  function Reserve(g: Graph, edges: set<Edge>, size: nat): Graph {
    map e | e in g :: if e in edges then g[e].(used := g[e].used + size) else g[e]
  }

  /**
   * Admission is granted exactly when there is a current path and reserving
   * the flow on every link of the current paths keeps each within capacity.
   */
  lemma AdmissionWithinCapacity(g: Graph, flow: Flow, paths: seq<Path>)
    ensures CanAllocateFlow(g, flow, paths) <==>
              && |paths| > 0
              && forall e :: e in EdgesOf(paths) ==>
                   e in g && Reserve(g, EdgesOf(paths), flow.size)[e].used <= g[e].capacity
  {
    forall e ensures e in EdgesOf(paths) <==> exists p :: p in paths && e in PathEdges(p) {
      EdgesOfContains(paths, e);
    }
  }

  /** `addAllocationEntry`: the flow's entry under the prefix becomes `paths`. */
  function WithEntry(t: AllocationTable, prefix: Prefix, flow: Flow, paths: seq<Path>): (r: AllocationTable)
    ensures r.Keys == t.Keys + {prefix}
    ensures r[prefix].Keys == (if prefix in t then t[prefix].Keys else {}) + {flow}
    ensures r[prefix][flow] == paths
    ensures forall f :: prefix in t && f in t[prefix] && f != flow ==> r[prefix][f] == t[prefix][f]
    ensures forall p :: p in t && p != prefix ==> r[p] == t[p]
  {
    t[prefix := (if prefix in t then t[prefix] else map[])[flow := paths]]
  }

  /** Recording a flow again replaces its entry: a flow never holds two allocations. */
  lemma RecordReplaces(t: AllocationTable, prefix: Prefix, flow: Flow, a: seq<Path>, b: seq<Path>)
    ensures WithEntry(WithEntry(t, prefix, flow, a), prefix, flow, b) == WithEntry(t, prefix, flow, b)
  {
    var l := WithEntry(WithEntry(t, prefix, flow, a), prefix, flow, b);
    var r := WithEntry(t, prefix, flow, b);
    assert l[prefix] == r[prefix];
  }

  /** Records a flow against `paths` in the allocation table. */
  function Record(s: State, prefix: Prefix, flow: Flow, paths: seq<Path>): State {
    s.(allocations := WithEntry(s.allocations, prefix, flow, paths),
       trace := s.trace + [Recorded(prefix, flow, paths)])
  }

  /** Full edges of the DAG that carry ongoing flows to the prefix (only logged by the source). */
  function OngoingFullEdges(g: Graph, dag: Dag, size: nat): set<Edge> {
    set e | e in FullEdges(g, size) && e in dag && dag[e].ongoingFlows
  }

  /**
   * `flowAllocationAlgorithm` on the state. `route` is the default shortest
   * path in the filtered graph, or None when there is none; `refreshed` is
   * as for `Push`.
   */
  function Reallocate(s: State, dstPrefix: Prefix, flow: Flow, initialPaths: seq<Path>, route: Option<Path>,
                      refreshed: set<Lie>): State {
    match route
    case None => Record(s, dstPrefix, flow, initialPaths)
    case Some(found) =>
      var path := DropLast(found);
      Record(Push(s, dstPrefix, Reroute(CurrentDag(s.dags, dstPrefix), path), refreshed), dstPrefix, flow, [path])
  }

  /**
   * Stores `dag` for the prefix, removes the prefix's lies when there are
   * some, hands the active part of `dag` to the southbound manager and
   * refreshes it. The refresh recomputes the lies from `fwd_dags`; that
   * computation belongs to the fibbing controller, so the lies it yields are
   * the input `refreshed`.
   */
  function Push(s: State, dstPrefix: Prefix, dag: Dag, refreshed: set<Lie>): State {
    var lies := LiesFromPrefix(s.lies, dstPrefix);
    var stored := s.(dags := s.dags[dstPrefix := dag], trace := s.trace + [StoredDag(dstPrefix, dag)]);
    var cleaned := if lies != {} then stored.(lies := stored.lies - lies, trace := stored.trace + [RemovedLies(lies)])
                   else stored;
    var installed := cleaned.(fwdDags := cleaned.fwdDags[dstPrefix := ActiveDag(dag)],
                              trace := cleaned.trace + [InstalledFwdDag(dstPrefix, ActiveDag(dag))]);
    installed.(lies := refreshed, refreshes := installed.refreshes + 1, trace := installed.trace + [Refreshed])
  }

  /** What `flowAllocationAlgorithm` decides. */
  function ReallocationDecision(g: Graph, s: State, dstPrefix: Prefix, flow: Flow, route: Option<Path>): Decision {
    match route
    case None => Fallback
    case Some(found) =>
      Rerouted(DropLast(found), OngoingFullEdges(g, PruneOffPath(CurrentDag(s.dags, dstPrefix), DropLast(found)), flow.size))
  }

  /** `dealWithNewFlow` on the state. */
  function Dispatch(g: Graph, s: State, flow: Flow, currentPaths: seq<Path>, route: Option<Path>,
                    refreshed: set<Lie>): State {
    if CanAllocateFlow(g, flow, currentPaths) then Record(s, flow.dstPrefix, flow, currentPaths)
    else Reallocate(s, flow.dstPrefix, flow, currentPaths, route, refreshed)
  }

  /** The southbound manager holds, for each prefix it serves, the active part of the stored DAG. */
  ghost predicate Consistent(s: State) {
    forall p :: p in s.fwdDags ==> p in s.dags && s.fwdDags[p] == ActiveDag(s.dags[p])
  }

  /**
   * Admission: the flow is recorded once against the current paths, and
   * neither the DAG store nor the southbound state changes.
   */
  lemma AdmittedRecordsOnly(g: Graph, s: State, flow: Flow, currentPaths: seq<Path>, route: Option<Path>, refreshed: set<Lie>)
    requires CanAllocateFlow(g, flow, currentPaths)
    ensures var r := Dispatch(g, s, flow, currentPaths, route, refreshed);
            && r.dags == s.dags && r.fwdDags == s.fwdDags && r.lies == s.lies && r.refreshes == s.refreshes
            && r.allocations == WithEntry(s.allocations, flow.dstPrefix, flow, currentPaths)
            && r.trace == s.trace + [Recorded(flow.dstPrefix, flow, currentPaths)]
  {
  }

  /**
   * No congestion-free path: the flow is recorded once against the initial
   * paths, and the DAG store, `fwd_dags` and the lies stay as they were, with
   * no removal and no refresh.
   */
  lemma FallbackRecordsOnly(s: State, dstPrefix: Prefix, flow: Flow, initialPaths: seq<Path>, refreshed: set<Lie>)
    ensures var r := Reallocate(s, dstPrefix, flow, initialPaths, None, refreshed);
            && r.dags == s.dags && r.fwdDags == s.fwdDags && r.lies == s.lies && r.refreshes == s.refreshes
            && r.allocations == WithEntry(s.allocations, dstPrefix, flow, initialPaths)
            && r.trace == s.trace + [Recorded(dstPrefix, flow, initialPaths)]
  {
  }

  /**
   * The southbound push: the DAG is stored for the prefix, `fwd_dags` gets its
   * active part (which holds no inactive edge) and nothing else, and every
   * other prefix keeps its DAG and its `fwd_dags` entry.
   */
  lemma PushInstallsActiveDag(s: State, dstPrefix: Prefix, dag: Dag, refreshed: set<Lie>)
    ensures var r := Push(s, dstPrefix, dag, refreshed);
            && r.dags == s.dags[dstPrefix := dag]
            && r.fwdDags == s.fwdDags[dstPrefix := ActiveDag(dag)]
            && (forall e :: e in r.fwdDags[dstPrefix] ==> r.fwdDags[dstPrefix][e].active)
            && (forall q :: q != dstPrefix ==> CurrentDag(r.dags, q) == CurrentDag(s.dags, q))
            && (forall q :: q != dstPrefix && q in s.fwdDags ==> q in r.fwdDags && r.fwdDags[q] == s.fwdDags[q])
  {
  }

  /** The re-route branch stores the rerouted DAG and pushes it. */
  lemma RerouteInstallsActiveDag(s: State, dstPrefix: Prefix, flow: Flow, initialPaths: seq<Path>, found: Path, refreshed: set<Lie>)
    ensures var r := Reallocate(s, dstPrefix, flow, initialPaths, Some(found), refreshed);
            var dag := Reroute(CurrentDag(s.dags, dstPrefix), DropLast(found));
            && r.dags == s.dags[dstPrefix := dag]
            && r.fwdDags == s.fwdDags[dstPrefix := ActiveDag(dag)]
            && (forall e :: e in r.fwdDags[dstPrefix] ==> r.fwdDags[dstPrefix][e].active)
            && (forall q :: q != dstPrefix ==> CurrentDag(r.dags, q) == CurrentDag(s.dags, q))
            && (forall q :: q != dstPrefix && q in s.fwdDags ==> q in r.fwdDags && r.fwdDags[q] == s.fwdDags[q])
  {
    var dag := Reroute(CurrentDag(s.dags, dstPrefix), DropLast(found));
    PushInstallsActiveDag(s, dstPrefix, dag, refreshed);
  }

  /**
   * The re-route branch, southbound and record side: the prefix's lies are
   * withdrawn (the removal appears only when there are some), exactly one
   * refresh follows the install, and the flow is recorded once, against the
   * single new path, after the DAG was stored and pushed. The lies left
   * are the ones the refresh computed.
   */
  lemma RerouteSouthboundOrder(s: State, dstPrefix: Prefix, flow: Flow, initialPaths: seq<Path>, found: Path, refreshed: set<Lie>)
    ensures var r := Reallocate(s, dstPrefix, flow, initialPaths, Some(found), refreshed);
            var path := DropLast(found);
            var dag := Reroute(CurrentDag(s.dags, dstPrefix), path);
            var lies := LiesFromPrefix(s.lies, dstPrefix);
            && r.lies == refreshed && r.refreshes == s.refreshes + 1
            && r.allocations == WithEntry(s.allocations, dstPrefix, flow, [path])
            && r.trace == s.trace + [StoredDag(dstPrefix, dag)]
                                  + (if lies != {} then [RemovedLies(lies)] else [])
                                  + [InstalledFwdDag(dstPrefix, ActiveDag(dag)), Refreshed, Recorded(dstPrefix, flow, [path])]
  {
  }

  /** Every allocation step keeps the southbound manager in step with the DAG store. */
  lemma DispatchKeepsConsistent(g: Graph, s: State, flow: Flow, currentPaths: seq<Path>, route: Option<Path>, refreshed: set<Lie>)
    requires Consistent(s)
    ensures Consistent(Dispatch(g, s, flow, currentPaths, route, refreshed))
  {
    if !CanAllocateFlow(g, flow, currentPaths) {
      ReallocateKeepsConsistent(s, flow.dstPrefix, flow, currentPaths, route, refreshed);
    }
  }

  lemma ReallocateKeepsConsistent(s: State, dstPrefix: Prefix, flow: Flow, initialPaths: seq<Path>, route: Option<Path>, refreshed: set<Lie>)
    requires Consistent(s)
    ensures Consistent(Reallocate(s, dstPrefix, flow, initialPaths, route, refreshed))
  {
    if route.Some? {
      var dag := Reroute(CurrentDag(s.dags, dstPrefix), DropLast(route.value));
      PushKeepsConsistent(s, dstPrefix, dag, refreshed);
    }
  }

  lemma PushKeepsConsistent(s: State, dstPrefix: Prefix, dag: Dag, refreshed: set<Lie>)
    requires Consistent(s)
    ensures Consistent(Push(s, dstPrefix, dag, refreshed))
  {
  }

  /**
   * The whole re-route, end to end: when admission fails and a congestion-free
   * path is found, every link of the committed path has room for the flow, the
   * stored DAG for the prefix forwards each node of the committed path only
   * to its successor and the last one nowhere, leaves every edge out of other
   * nodes as it was (so a full edge off the path is never switched off), and
   * the southbound manager receives exactly its active part.
   */
  lemma RerouteOutcome(g: Graph, s: State, flow: Flow, currentPaths: seq<Path>, found: Path, refreshed: set<Lie>)
    requires !CanAllocateFlow(g, flow, currentPaths)
    requires ShortestPathResult(WithoutFullEdges(g, flow.size), flow.ingress, flow.dstPrefix, Some(found))
    ensures var r := Dispatch(g, s, flow, currentPaths, Some(found), refreshed);
            var path := DropLast(found);
            var old_dag := CurrentDag(s.dags, flow.dstPrefix);
            var dag := r.dags[flow.dstPrefix];
            && (forall e :: e in PathEdges(path) ==> e in g && Spare(g[e]) >= flow.size)
            && (forall i :: 0 <= i < |path| - 1 ==> ActiveEdges(dag, path[i]) == {Edge(path[i], path[i + 1])})
            && (|path| > 0 ==> ActiveEdges(dag, path[|path| - 1]) == {})
            && (forall e :: e in old_dag && e.src !in path ==> e in dag && dag[e] == old_dag[e])
            && (forall n :: ActiveEdges(r.fwdDags[flow.dstPrefix], n) == ActiveEdges(dag, n))
  {
    var path := DropLast(found);
    var old_dag := CurrentDag(s.dags, flow.dstPrefix);
    var dag := Reroute(old_dag, path);
    RerouteStoresDag(g, s, flow, currentPaths, found, refreshed);
    CommittedPathIsCongestionFree(g, flow.size, found);
    assert IsSimple(path);
    RerouteShape(old_dag, path);
    forall n ensures ActiveEdges(ActiveDag(dag), n) == ActiveEdges(dag, n) {
      ActiveDagKeepsForwarding(dag, n);
    }
  }

  /** When admission fails and a path is found, the DAG stored and pushed is the re-routed one. */
  lemma RerouteStoresDag(g: Graph, s: State, flow: Flow, currentPaths: seq<Path>, found: Path, refreshed: set<Lie>)
    requires !CanAllocateFlow(g, flow, currentPaths)
    ensures var r := Dispatch(g, s, flow, currentPaths, Some(found), refreshed);
            var dag := Reroute(CurrentDag(s.dags, flow.dstPrefix), DropLast(found));
            && flow.dstPrefix in r.dags && r.dags[flow.dstPrefix] == dag
            && flow.dstPrefix in r.fwdDags && r.fwdDags[flow.dstPrefix] == ActiveDag(dag)
  {
    RerouteInstallsActiveDag(s, flow.dstPrefix, flow, currentPaths, found, refreshed);
  }

  /** No DAG in the store has an active cycle. */
  ghost predicate StoreAcyclic(s: State) {
    forall p :: p in s.dags ==> ActiveAcyclic(s.dags[p])
  }

  /**
   * Every allocation step keeps the stored DAGs free of active cycles: the
   * only DAG it changes is the re-routed one, and the path committed there is
   * simple, being a shortest path minus its last node.
   */
  lemma DispatchKeepsAcyclic(g: Graph, s: State, flow: Flow, currentPaths: seq<Path>, route: Option<Path>,
                             refreshed: set<Lie>)
    requires StoreAcyclic(s)
    requires ShortestPathResult(WithoutFullEdges(g, flow.size), flow.ingress, flow.dstPrefix, route)
    ensures StoreAcyclic(Dispatch(g, s, flow, currentPaths, route, refreshed))
  {
    if !CanAllocateFlow(g, flow, currentPaths) && route.Some? {
      var path := DropLast(route.value);
      assert IsSimple(path);
      var old_dag := CurrentDag(s.dags, flow.dstPrefix);
      if flow.dstPrefix !in s.dags {
        EmptyDagAcyclic(old_dag);
      }
      RerouteKeepsAcyclic(old_dag, path);
      RerouteInstallsActiveDag(s, flow.dstPrefix, flow, currentPaths, route.value, refreshed);
    }
  }
}
