/**
 * The simple-path load balancer as an object: its DAG store and allocation
 * table, the southbound (fibbing) manager it drives, and the two operations
 * of the greedy allocation step, each proved against its specification in
 * module Allocation.
 */
module LoadBalancer {
  import opened Wrappers
  import opened Network
  import opened ForwardingDag
  import opened Allocation

  /** The southbound manager as the load balancer sees it. */
  class SouthboundManager {
    /** The forwarding DAG to enforce, per destination prefix. */
    var fwdDags: map<Prefix, Dag>
    /** The lies (fake LSAs) currently injected. */
    var lies: set<Lie>
    /** How many times the lies were recomputed from `fwdDags`. */
    var refreshes: nat

    constructor ()
      ensures fwdDags == map[] && lies == {} && refreshes == 0
    {
      fwdDags := map[];
      lies := {};
      refreshes := 0;
    }

    /** `remove_lsas`: withdraws the given lies. */
    method RemoveLsas(lsa: set<Lie>)
      modifies this
      ensures lies == old(lies) - lsa
      ensures fwdDags == old(fwdDags) && refreshes == old(refreshes)
    {
      lies := lies - lsa;
    }

    /**
     * `refresh_lsas`: the lies are recomputed from `fwdDags` and re-injected.
     * `recomputed` is what that computation yields; it is not part of this
     * model.
     */
    method RefreshLsas(recomputed: set<Lie>)
      modifies this
      ensures lies == recomputed && refreshes == old(refreshes) + 1
      ensures fwdDags == old(fwdDags)
    {
      lies := recomputed;
      refreshes := refreshes + 1;
    }
  }

  class SimplePathLB {
    /** The network graph with its capacities, loads and costs. */
    const initialGraph: Graph
    const sbmanager: SouthboundManager
    /** The forwarding DAG of each destination prefix. */
    var dags: map<Prefix, Dag>
    /** Which flows are allocated to which paths, per destination prefix. */
    var flowAllocation: AllocationTable
    /** The state-changing actions taken so far, in order. */
    ghost var trace: seq<Action>

    ghost function Abstract(): State
      reads this, sbmanager
    {
      State(dags, flowAllocation, sbmanager.fwdDags, sbmanager.lies, sbmanager.refreshes, trace)
    }

    ghost predicate Valid()
      reads this, sbmanager
    {
      Consistent(Abstract())
    }

    constructor (graph: Graph, initialDags: map<Prefix, Dag>)
      ensures Valid() && fresh(sbmanager)
      ensures initialGraph == graph
      ensures Abstract() == State(initialDags, map[], map[], {}, 0, [])
    {
      initialGraph := graph;
      sbmanager := new SouthboundManager();
      dags := initialDags;
      flowAllocation := map[];
      trace := [];
    }

    /** `getCurrentDag` */
    function GetCurrentDag(prefix: Prefix): Dag
      reads this
    {
      CurrentDag(dags, prefix)
    }

    /** `setCurrentDag` */
    method SetCurrentDag(prefix: Prefix, dag: Dag)
      modifies this
      ensures dags == old(dags)[prefix := dag]
      ensures flowAllocation == old(flowAllocation)
      ensures trace == old(trace) + [StoredDag(prefix, dag)]
    {
      dags := dags[prefix := dag];
      trace := trace + [StoredDag(prefix, dag)];
    }

    /** `getActiveDag` */
    function GetActiveDag(prefix: Prefix): Dag
      reads this
    {
      ActiveDag(GetCurrentDag(prefix))
    }

    /** `getLiesFromPrefix` */
    function GetLiesFromPrefix(prefix: Prefix): set<Lie>
      reads sbmanager
    {
      LiesFromPrefix(sbmanager.lies, prefix)
    }

    /** `addAllocationEntry` */
    method AddAllocationEntry(prefix: Prefix, flow: Flow, paths: seq<Path>)
      modifies this
      ensures flowAllocation == WithEntry(old(flowAllocation), prefix, flow, paths)
      ensures dags == old(dags)
      ensures trace == old(trace) + [Recorded(prefix, flow, paths)]
    {
      flowAllocation := WithEntry(flowAllocation, prefix, flow, paths);
      trace := trace + [Recorded(prefix, flow, paths)];
    }

    /**
     * `flowAllocationAlgorithm`. `route` is what the default Dijkstra
     * computation returns on the graph without full edges; `refreshed` is the
     * lie set the southbound manager computes when refreshed.
     */
    method FlowAllocationAlgorithm(dstPrefix: Prefix, flow: Flow, initialPaths: seq<Path>, route: Option<Path>,
                                   refreshed: set<Lie>)
      returns (decision: Decision)
      requires Valid()
      requires ShortestPathResult(WithoutFullEdges(initialGraph, flow.size), flow.ingress, flow.dstPrefix, route)
      modifies this, sbmanager
      ensures Valid()
      ensures Abstract() == Reallocate(old(Abstract()), dstPrefix, flow, initialPaths, route, refreshed)
      ensures decision == ReallocationDecision(initialGraph, old(Abstract()), dstPrefix, flow, route)
      ensures decision.Rerouted? ==>
                forall e :: e in PathEdges(decision.path) ==> e in initialGraph && Spare(initialGraph[e]) >= flow.size
    {
      ReallocateKeepsConsistent(Abstract(), dstPrefix, flow, initialPaths, route, refreshed);
      match route {
        case None =>
          AddAllocationEntry(dstPrefix, flow, initialPaths);
          decision := Fallback;
        case Some(found) =>
          CommittedPathIsCongestionFree(initialGraph, flow.size, found);
          var path := DropLast(found);
          var dag := GetCurrentDag(dstPrefix);
          dag := DeactivateOffPathEdges(dag, path);
          var checkOngoingFlows := OngoingFullEdges(initialGraph, dag, flow.size);
          dag := SwitchDagEdgesData(dag, [path], true);
          assert dag == Reroute(GetCurrentDag(dstPrefix), path);
          StoreAndForceDag(dstPrefix, dag, refreshed);
          AddAllocationEntry(dstPrefix, flow, [path]);
          decision := Rerouted(path, checkOngoingFlows);
      }
    }

    /**
     * The part of `flowAllocationAlgorithm` that stores the new DAG and has
     * the southbound manager enforce its active part.
     */
    method StoreAndForceDag(dstPrefix: Prefix, dag: Dag, refreshed: set<Lie>)
      modifies this, sbmanager
      ensures Abstract() == Push(old(Abstract()), dstPrefix, dag, refreshed)
    {
      SetCurrentDag(dstPrefix, dag);
      var finalDag := GetActiveDag(dstPrefix);
      var lsa := GetLiesFromPrefix(dstPrefix);
      if lsa != {} {
        sbmanager.RemoveLsas(lsa);
        trace := trace + [RemovedLies(lsa)];
      }
      sbmanager.fwdDags := sbmanager.fwdDags[dstPrefix := finalDag];
      trace := trace + [InstalledFwdDag(dstPrefix, finalDag)];
      sbmanager.RefreshLsas(refreshed);
      trace := trace + [Refreshed];
    }

    /**
     * `dealWithNewFlow`. `currentPaths` are the active paths for the flow's
     * prefix pair; `route` and `refreshed` are as for `FlowAllocationAlgorithm`.
     */
    method DealWithNewFlow(flow: Flow, currentPaths: seq<Path>, route: Option<Path>, refreshed: set<Lie>)
      returns (decision: Decision)
      requires Valid()
      requires ShortestPathResult(WithoutFullEdges(initialGraph, flow.size), flow.ingress, flow.dstPrefix, route)
      modifies this, sbmanager
      ensures Valid()
      ensures Abstract() == Dispatch(initialGraph, old(Abstract()), flow, currentPaths, route, refreshed)
      ensures StoreAcyclic(old(Abstract())) ==> StoreAcyclic(Abstract())
      ensures decision.Admitted? <==> CanAllocateFlow(initialGraph, flow, currentPaths)
      ensures !decision.Admitted? ==>
                decision == ReallocationDecision(initialGraph, old(Abstract()), flow.dstPrefix, flow, route)
    {
      if StoreAcyclic(Abstract()) {
        DispatchKeepsAcyclic(initialGraph, Abstract(), flow, currentPaths, route, refreshed);
      }
      var dstPrefix := flow.dstPrefix;
      if CanAllocateFlow(initialGraph, flow, currentPaths) {
        AddAllocationEntry(dstPrefix, flow, currentPaths);
        decision := Admitted;
      } else {
        decision := FlowAllocationAlgorithm(dstPrefix, flow, currentPaths, route, refreshed);
      }
    }
  }
}
