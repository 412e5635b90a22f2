# SimplePathLB greedy flow allocation, in Dafny

This project models the greedy allocation step of the `SimplePathLB` load
balancer in `tecontroller` (a fibbing-based traffic-engineering controller).
When a new flow arrives, `dealWithNewFlow` checks whether the flow fits on
the paths its prefix pair already uses. If it fits, the controller only
records the allocation. If not, `flowAllocationAlgorithm` does the rest:

- it removes from the network graph every link with less spare capacity than
  the flow's size;
- it takes the default (Dijkstra) shortest path in what is left and drops the
  destination-subnet node from it;
- with no such path, it records the flow against its current paths and stops;
- otherwise it edits the destination prefix's forwarding DAG so that each
  node of the new path forwards only along the path;
- it stores that DAG and hands its active part to the southbound (fibbing)
  manager: old lies are removed if there are any, `fwd_dags` is set, and the
  manager is refreshed once;
- finally it records the flow against the new path.

Modules:

- `Network` (`network.dfy`): the graph, paths and their edges, the two
  capacity filters, and the contract of the shortest-path computation.
- `ForwardingDag` (`dag.dfy`): DAG edge flags, `switchDagEdgesData`,
  `getActiveEdges`, `getActiveDag`, and the DAG edit of the re-route, with the
  removal loop as two nested-loop methods.
- `Allocation` (`allocation.dfy`): the controller and southbound state as a
  value (`State`), the admission test, and the two operations as functions on
  it (`Dispatch`, `Reallocate`). Lemmas here state what they guarantee.
- `LoadBalancer` (`load_balancer.dfy`): the `SimplePathLB` class, which owns
  the DAG store and the allocation table and drives a `SouthboundManager`
  object. Its methods are proved against the functions of `Allocation`
  through a ghost `Abstract()` view. A ghost `trace` records the
  state-changing actions in order.
- `Scenarios` (`scenarios.dfy`): the three-router topology of the test
  network (r1-r2 cost 10, r1-r3 cost 3, r3-r2 cost 3), with one scenario
  that re-routes and one that falls back.

The base class `LBController` is not part of this model. Its helpers are
given contracts that match how `simplepathlb.py` uses them:

- `getActivePaths` becomes the `currentPaths` input of `DealWithNewFlow`.
- `getDefaultDijkstraPath` becomes the `route` input. `route` is constrained
  by `ShortestPathResult`: some least-cost simple path in the filtered graph,
  or `None` exactly when no path exists. Ties are not broken by any fixed
  rule.
- `canAllocateFlow` holds when there is at least one current path and every
  link of every current path has spare capacity at least the flow's size.
- `switchDagEdgesData` sets the flag on each consecutive edge of each node
  sequence it is given. An edge the DAG does not hold is added with no
  ongoing flows.
- `refresh_lsas` recomputes the lies from `fwd_dags`. That computation
  belongs to the fibbing controller, so the lie set it yields is the
  `refreshed` input of `DealWithNewFlow`, `FlowAllocationAlgorithm` and
  `StoreAndForceDag`. The model promises nothing else about it.

The comment at `simplepathlb.py:140` says full edges are removed from the
DAG. The code only collects the full edges that carry ongoing flows and logs
them (lines 143-154). The model follows the code: those edges are returned
in the `Rerouted` decision, and collecting them never changes the DAG. A full
edge is switched off only when the removal loop reaches it, because it
leaves a node of the new path.

## Model

| member | source | states |
|---|---|---|
| LoadBalancer.SimplePathLB.DealWithNewFlow | tecontroller/loadbalancer/simplepathlb.py:38-82 | The new state is `Dispatch` of the old one. The flow is admitted exactly when `CanAllocateFlow` holds on the current paths. Otherwise the decision is the one `flowAllocationAlgorithm` makes with the same prefix, flow and current paths. The number of current paths (the ECMP classification) plays no part. The southbound manager stays consistent with the DAG store, and a store with no active cycle keeps none. |
| LoadBalancer.SimplePathLB.FlowAllocationAlgorithm | tecontroller/loadbalancer/simplepathlb.py:85-191 | The new state is `Reallocate` of the old one, and consistency is kept. On a re-route, every link of the committed path has spare capacity at least the flow's size in the initial graph. |
| LoadBalancer.SimplePathLB.StoreAndForceDag | tecontroller/loadbalancer/simplepathlb.py:159-177 | Storing the DAG and forcing it through the southbound manager yields exactly `Push` of the old state: the DAG is stored, the prefix's lies are withdrawn when there are some, `fwd_dags` gets the active part, and one refresh replaces the lies with the recomputed set `refreshed`. |
| LoadBalancer.SimplePathLB.AddAllocationEntry | tecontroller/loadbalancer/simplepathlb.py:74 | The table becomes `WithEntry` of the old table. The DAG store is unchanged. One `Recorded` action is appended. |
| LoadBalancer.SimplePathLB.SetCurrentDag | tecontroller/loadbalancer/simplepathlb.py:160 | Only the prefix's DAG is replaced, and the allocation table is unchanged. |
| LoadBalancer.SimplePathLB.constructor | tecontroller/loadbalancer/simplepathlb.py:34-35 | Starts with the given graph and DAGs, an empty allocation table and a fresh, empty southbound manager, in a consistent state. |
| LoadBalancer.SimplePathLB.GetCurrentDag | tecontroller/loadbalancer/simplepathlb.py:121 | The DAG stored for the prefix, or the empty DAG when none is stored. |
| LoadBalancer.SimplePathLB.GetActiveDag | tecontroller/loadbalancer/simplepathlb.py:163 | The active part (`ActiveDag`) of the stored DAG. |
| LoadBalancer.SimplePathLB.GetLiesFromPrefix | tecontroller/loadbalancer/simplepathlb.py:172 | The southbound manager's lies whose prefix is the given one. |
| LoadBalancer.SouthboundManager.RemoveLsas | tecontroller/loadbalancer/simplepathlb.py:174-175 | Exactly the given lies are withdrawn. `fwd_dags` and the refresh count are unchanged. |
| LoadBalancer.SouthboundManager.RefreshLsas | tecontroller/loadbalancer/simplepathlb.py:177 | Counts one refresh, and the lies become the recomputed set it is given. `fwd_dags` is unchanged. |
| ForwardingDag.ActiveEdges | tecontroller/loadbalancer/simplepathlb.py:135 | A node's active out-edges. `ActiveDagKeepsForwarding` and `RerouteShape` state what they are after the edit. |
| ForwardingDag.PruneOffPath | tecontroller/loadbalancer/simplepathlb.py:133-138 | Specification of the removal loop: every edge out of a path node that is not a new-path edge is switched off. `DeactivateOffPathEdges` is proved to compute it. |
| ForwardingDag.Reroute | tecontroller/loadbalancer/simplepathlb.py:129-157 | Specification of the DAG edit: `PruneOffPath`, then the path's edges switched on. `RerouteEdge`, `RerouteShape` and `RerouteKeysAndFlags` state what it yields. |
| ForwardingDag.RerouteKeepsAcyclic | tecontroller/loadbalancer/simplepathlb.py:129-157 | If the DAG has no cycle of active edges and the path is simple, the edited DAG has none either. No active cycle can visit the path, and away from the path the edges are the old ones. |
| ForwardingDag.DeactivateOffPathEdges | tecontroller/loadbalancer/simplepathlb.py:129-138 | The nested removal loop ends with exactly `PruneOffPath`. Every edge out of a node of the new path that is not a new-path edge is switched off. Every other edge is unchanged. |
| ForwardingDag.DeactivateNodeEdges | tecontroller/loadbalancer/simplepathlb.py:134-138 | The inner loop over one node's active edges switches off exactly that node's edges outside the new path's edges. |
| ForwardingDag.SwitchDagEdgesData | tecontroller/loadbalancer/simplepathlb.py:138 | The keys become the old keys plus every consecutive edge of every given sequence. Those edges get the flag, keeping `ongoing_flows` if they were present. Every other edge is unchanged. |
| ForwardingDag.EdgesOfContains | tecontroller/loadbalancer/simplepathlb.py:157 | An edge is switched by `switchDagEdgesData` exactly when it is a consecutive pair of one of the given sequences. |
| ForwardingDag.ActiveDag | tecontroller/loadbalancer/simplepathlb.py:163 | The active sub-DAG holds exactly the active edges of the DAG, with the same data. |
| ForwardingDag.ActiveDagKeepsForwarding | tecontroller/loadbalancer/simplepathlb.py:163 | Keeping only the active edges leaves every node's active out-edges unchanged. Taking the active part twice changes nothing. |
| ForwardingDag.RerouteEdge | tecontroller/loadbalancer/simplepathlb.py:129-157 | After the edit, an edge is present iff it was present or is a path edge. It is active iff it is a path edge, or it was active and leaves a node off the path. Its `ongoing_flows` flag is kept. An edge out of a node off the path is unchanged. |
| ForwardingDag.RerouteShape | tecontroller/loadbalancer/simplepathlb.py:129-157 | For a simple path, each node before the last has exactly one active out-edge, the one to its successor. The last node has none. Edges out of nodes off the path and all `ongoing_flows` flags are kept. |
| ForwardingDag.RerouteKeysAndFlags | tecontroller/loadbalancer/simplepathlb.py:133-157 | The edit adds exactly the path's edges. It keeps every edge out of a node off the path, and every `ongoing_flows` flag. |
| ForwardingDag.ActiveOutOfPathNode | tecontroller/loadbalancer/simplepathlb.py:133-157 | A path node other than the last forwards only to its successor. |
| ForwardingDag.ActiveOutOfLastNode | tecontroller/loadbalancer/simplepathlb.py:133-157 | The last node of the committed path has no active out-edge. |
| Network.DropLast | tecontroller/loadbalancer/simplepathlb.py:101 | The `[:-1]` of the found path: putting the last node back gives the path again, and the empty path stays empty. |
| Network.PathEdges | tecontroller/loadbalancer/simplepathlb.py:130 | A path's edges are its consecutive pairs: one fewer than its nodes, the i-th being (p[i], p[i+1]). |
| Network.WithoutFullEdges | tecontroller/loadbalancer/simplepathlb.py:93-94 | The filtered graph keeps exactly the links whose spare capacity is at least the flow's size, with their data. |
| Network.FullEdges | tecontroller/loadbalancer/simplepathlb.py:143 | The full edges and the kept edges split the graph's links into two disjoint parts. |
| Network.ShortestPathResult | tecontroller/loadbalancer/simplepathlb.py:98 | Contract of `getDefaultDijkstraPath`: `Some` of a least-cost simple path from the ingress to the prefix in the given graph, or `None` when no path exists. |
| Network.CommittedPathIsCongestionFree | tecontroller/loadbalancer/simplepathlb.py:93-101 | Every edge of the committed path (the found path minus its last node) is an edge of the found path, is in the graph, and has spare capacity at least the flow's size. |
| Network.NoExitNoPath | tecontroller/loadbalancer/simplepathlb.py:103 | A source with no outgoing link in the filtered graph has no path to any other node, so the no-path branch is the one taken. |
| Allocation.CanAllocateFlow | tecontroller/loadbalancer/simplepathlb.py:71 | Contract of `canAllocateFlow`: there is a current path and every link of every current path has spare capacity at least the flow's size. `AdmissionWithinCapacity` states it as a capacity bound. |
| Allocation.OngoingFullEdges | tecontroller/loadbalancer/simplepathlb.py:143-147 | The full edges of the initial graph that the DAG holds with the `ongoing_flows` flag set. They are only reported in the decision. |
| Allocation.Dispatch | tecontroller/loadbalancer/simplepathlb.py:38-82 | Specification of `dealWithNewFlow` on the state: a record against the current paths when admission holds, otherwise `Reallocate`. `AdmittedRecordsOnly` and `DispatchKeepsConsistent` state what it guarantees. |
| Allocation.Reallocate | tecontroller/loadbalancer/simplepathlb.py:85-191 | Specification of `flowAllocationAlgorithm` on the state: a record against the initial paths when no route exists, otherwise `Push` of the edited DAG followed by a record against the committed path. `FallbackRecordsOnly`, `RerouteSouthboundOrder` and `RerouteOutcome` state what it guarantees. |
| Allocation.Push | tecontroller/loadbalancer/simplepathlb.py:159-177 | Specification of the store-and-force step: store the DAG, withdraw the prefix's lies when there are some, install the active part in `fwd_dags`, refresh with the recomputed lies. `PushInstallsActiveDag` and `PushKeepsConsistent` state what it guarantees. |
| Allocation.ReallocationDecision | tecontroller/loadbalancer/simplepathlb.py:93-157 | What `flowAllocationAlgorithm` decides: fallback without a route, otherwise the committed path with the ongoing full edges of the pruned DAG. |
| Allocation.AdmissionWithinCapacity | tecontroller/loadbalancer/simplepathlb.py:71 | Admission holds iff there is a current path and reserving the flow on every link of the current paths keeps each link within capacity. |
| Allocation.Record | tecontroller/loadbalancer/simplepathlb.py:74 | `addAllocationEntry` on the state: the table becomes `WithEntry` and one `Recorded` action is appended, with nothing else changed. `Dispatch` and `Reallocate` apply it at lines 74, 110 and 180. `AdmittedRecordsOnly`, `FallbackRecordsOnly` and `RecordReplaces` state what it guarantees. |
| Allocation.WithEntry | tecontroller/loadbalancer/simplepathlb.py:74 | The flow's entry under the prefix becomes the given paths. Every other flow and every other prefix keeps its entry. |
| Allocation.RecordReplaces | tecontroller/loadbalancer/simplepathlb.py:74-180 | Recording a flow twice leaves only the last record, so a flow never holds two allocations. |
| Allocation.AdmittedRecordsOnly | tecontroller/loadbalancer/simplepathlb.py:69-74 | On admission, exactly one entry (prefix, flow, current paths) is added. The DAG store, `fwd_dags`, the lies and the refresh count are unchanged. The trace grows by one `Recorded`. |
| Allocation.FallbackRecordsOnly | tecontroller/loadbalancer/simplepathlb.py:103-110 | With no congestion-free path, the flow is recorded once against the initial paths. Nothing else changes: no lie removal and no refresh. |
| Allocation.PushInstallsActiveDag | tecontroller/loadbalancer/simplepathlb.py:159-177 | The DAG is stored for the prefix, and `fwd_dags` gets its active part, which holds no inactive edge. Every other prefix keeps its DAG and its `fwd_dags` entry. |
| Allocation.RerouteInstallsActiveDag | tecontroller/loadbalancer/simplepathlb.py:157-177 | On the re-route branch, the stored DAG is the edited one and `fwd_dags` gets its active part. No other prefix changes. |
| Allocation.RerouteSouthboundOrder | tecontroller/loadbalancer/simplepathlb.py:159-180 | The prefix's lies are withdrawn, and the trace shows the removal only when there were some. Exactly one refresh follows, and the lies left are the ones it computed. The flow is recorded once against `[path]`. The actions run in the order: store DAG, remove lies, set `fwd_dags`, refresh, record. |
| Allocation.RerouteStoresDag | tecontroller/loadbalancer/simplepathlb.py:157-163 | When admission fails and a path is found, the stored DAG is the edited one and `fwd_dags` holds its active part. |
| Allocation.RerouteOutcome | tecontroller/loadbalancer/simplepathlb.py:93-177 | End to end, when admission fails and a path is found: every committed link can carry the flow. Each committed node forwards only to its successor and the last one nowhere. Edges out of other nodes, including full edges with ongoing flows, are untouched. The southbound manager gets the same forwarding decisions. |
| Allocation.DispatchKeepsAcyclic | tecontroller/loadbalancer/simplepathlb.py:38-191 | If no stored DAG has an active cycle, none has one after an allocation step whose route is a shortest path. |
| Allocation.DispatchKeepsConsistent | tecontroller/loadbalancer/simplepathlb.py:69-82 | Every allocation step keeps each `fwd_dags` entry equal to the active part of the stored DAG. |
| Allocation.ReallocateKeepsConsistent | tecontroller/loadbalancer/simplepathlb.py:103-177 | Both branches of `flowAllocationAlgorithm` keep that consistency. |
| Allocation.PushKeepsConsistent | tecontroller/loadbalancer/simplepathlb.py:159-177 | The southbound push keeps that consistency. |
| Scenarios.OnlyCongestionFreeRoute | main.py:70-72 | With r1-r3 carrying 8 of 10, the least-cost path with room for 5 from r1 to d1 is r1-r2-d1. |
| Scenarios.CurrentPathIsFull | main.py:70-72 | That load makes the current path r1-r3-r2 refuse the flow. |
| Scenarios.RerouteOntoR1R2 | main.py:70-72 | Editing the initial DAG for [r1, r2] switches r1-r3 off (keeping its ongoing flow), switches r1-r2 on, and keeps r3-r2. |
| Scenarios.PushedIsActivePart | main.py:70-72 | The southbound manager receives r1-r2 and r3-r2 only. |
| Scenarios.ScenarioReroute | main.py:70-72 | For any state holding that initial DAG and one lie for d1: the edited DAG is stored, its active part is pushed, the second of the five actions withdraws exactly that lie, one refresh sets the lies to the recomputed ones, and the flow is recorded against [r1, r2]. |
| Scenarios.ScenarioReportsOngoingFullEdge | tecontroller/loadbalancer/simplepathlb.py:143-154 | In the re-route scenario, r1-r3 is full for size 5 and carries an ongoing flow to d1. So the decision reports exactly {r1-r3}, the case logged as needing longer prefix fibbing. The removal loop still switches that edge off. |
| Scenarios.ScenarioFallback | main.py:70-72 | With both links out of r1 carrying 8, no path exists. The flow is recorded against r1-r3-r2 and nothing else changes. |

## Left out

- The other half of the forwarding-graph invariant, that every node carrying traffic keeps an active route to the prefix, is not claimed. The code does not enforce it: the last node of the committed path loses every active out-edge (`ActiveOutOfLastNode`), and no edit is ever rejected. Full edges with ongoing flows are only reported, even when the edit switches them off (`ScenarioReportsOngoingFullEdge`). The absence of active cycles is proved (`RerouteKeepsAcyclic`).
- Logging, timestamps and the elapsed-time measurement: they have no effect on the state.
- The ECMP classification of the number of current paths: it only chooses a log message, so `DealWithNewFlow` does not compute it.
- The `LBController` base class: its helpers appear only through the contracts above. `getActivePaths` and `getDefaultDijkstraPath` are inputs rather than computations, and the networkx Dijkstra code is not part of this model.
- Lazy creation of a prefix's DAG by `getCurrentDag`: a prefix with no stored DAG is treated as having an empty one.
- The southbound manager's internals: lies are a set and `fwd_dags` is a map. How `refresh_lsas` recomputes the lies from `fwd_dags` is not modelled; the recomputed set is an input, so no property of the lies after a re-route is claimed beyond being that set.
- LoadBalancer.SimplePathLB.FlowAllocationAlgorithm: on the fallback branch, line 112 names an undefined `path_list`, so the source raises an exception right after recording the flow. The model stops after the record; the exception itself is not modelled.
- LoadBalancer.SimplePathLB.AddAllocationEntry: the base-class method is not part of this model, so its effects beyond the allocation table are not modelled. It does not reserve the flow's size on the links of its paths, and it does not mark those links' DAG edges as carrying ongoing flows. The graph is a `const` fixed when the load balancer is built, so every `DealWithNewFlow` sees the same loads. No operation sets an `ongoing_flows` flag, so the full-edge check only ever sees the flags of the DAGs given at construction. The order "record after the DAG change" is proved on the action trace, but in this model the record does not depend on the DAG.
- Conversion of flow addresses to prefixes (`network.compressed`), and the name/IP printing helpers used only in log messages.
- The `__main__` block, the thread and `time.sleep`; also `main.py` and `labs/lab1/main_lab1.py` beyond the link costs the scenarios borrow.
- Update in place of networkx graph objects: DAGs, graphs and the allocation table are values (maps), so aliasing between them is not captured.
