/**
 * Two scenarios of the allocation step on the three-router test topology
 * (r1-r2 cost 10, r1-r3 cost 3, r3-r2 cost 3, destination subnet d1 behind
 * r2, sources behind r1), with links of capacity 10 and a new flow of size 5.
 */
module Scenarios {
  import opened Wrappers
  import opened Network
  import opened ForwardingDag
  import opened Allocation

  const R1: Node := "r1"
  const R2: Node := "r2"
  const R3: Node := "r3"
  const D1: Prefix := "d1"

  lemma NamesDiffer()
    ensures R1 != R2 && R1 != R3 && R2 != R3 && R1 != D1 && R2 != D1 && R3 != D1
  {
    assert R1[1] != R2[1] && R1[1] != R3[1] && R2[1] != R3[1];
    assert R1[0] != D1[0] && R2[0] != D1[0] && R3[0] != D1[0];
  }

  /** The links towards d1; `r1r3Used` and `r1r2Used` are the loads already carried. */
  function Topology(r1r2Used: nat, r1r3Used: nat): Graph {
    map[Edge(R1, R2) := Link(10, r1r2Used, 10),
        Edge(R1, R3) := Link(10, r1r3Used, 3),
        Edge(R3, R2) := Link(10, 0, 3),
        Edge(R2, D1) := Link(10, 0, 1)]
  }

  /** The DAG towards d1 before the flow: the default path r1-r3-r2, which carries a flow. */
  function InitialDag(): Dag {
    map[Edge(R1, R3) := EdgeData(true, true),
        Edge(R3, R2) := EdgeData(true, false),
        Edge(R1, R2) := EdgeData(false, false)]
  }

  function NewFlow(): Flow {
    Flow("s1", D1, R1, 5)
  }

  /** The links with room for 5 when r1-r3 carries 8. */
  function RoomyLinks(): Graph {
    map[Edge(R1, R2) := Link(10, 0, 10), Edge(R3, R2) := Link(10, 0, 3), Edge(R2, D1) := Link(10, 0, 1)]
  }

  lemma FilterDropsLoadedLink()
    ensures WithoutFullEdges(Topology(0, 8), 5) == RoomyLinks()
  {
    NamesDiffer();
  }

  lemma OnlyPathThroughRoomyLinks(q: Path)
    requires IsPathBetween(RoomyLinks(), R1, D1, q)
    ensures q == [R1, R2, D1]
  {
    NamesDiffer();
    var g := RoomyLinks();
    assert |q| >= 2;
    assert PathEdges(q)[0] == Edge(q[0], q[1]) && PathEdges(q)[0] in PathEdges(q);
    assert q[1] == R2;
    assert |q| >= 3;
    assert PathEdges(q)[1] == Edge(q[1], q[2]) && PathEdges(q)[1] in PathEdges(q);
    assert q[2] == D1;
    PathEndsAtSink(g, q, 2);
  }

  lemma ShortestThroughRoomyLinks()
    ensures IsShortestPath(RoomyLinks(), R1, D1, [R1, R2, D1])
  {
    NamesDiffer();
    var p := [R1, R2, D1];
    assert PathEdges(p) == [Edge(R1, R2), Edge(R2, D1)];
    forall q | IsPathBetween(RoomyLinks(), R1, D1, q)
      ensures PathCost(RoomyLinks(), p) <= PathCost(RoomyLinks(), q)
    {
      OnlyPathThroughRoomyLinks(q);
    }
  }

  /** With r1-r3 carrying 8, the only path from r1 to d1 with room for 5 is r1-r2-d1. */
  lemma OnlyCongestionFreeRoute()
    ensures ShortestPathResult(WithoutFullEdges(Topology(0, 8), 5), R1, D1, Some([R1, R2, D1]))
  {
    FilterDropsLoadedLink();
    ShortestThroughRoomyLinks();
  }

  /** The DAG towards d1 after the re-route onto [r1, r2]. */
  function ReroutedDag(): Dag {
    map[Edge(R1, R3) := EdgeData(false, true),
        Edge(R3, R2) := EdgeData(true, false),
        Edge(R1, R2) := EdgeData(true, false)]
  }

  /** Its active part, which the southbound manager receives. */
  function PushedDag(): Dag {
    map[Edge(R3, R2) := EdgeData(true, false), Edge(R1, R2) := EdgeData(true, false)]
  }

  lemma CurrentPathIsFull()
    ensures !CanAllocateFlow(Topology(0, 8), NewFlow(), [[R1, R3, R2]])
  {
    NamesDiffer();
    assert [R1, R3, R2] in [[R1, R3, R2]];
    assert PathEdges([R1, R3, R2]) == [Edge(R1, R3), Edge(R3, R2)];
    assert Edge(R1, R3) in PathEdges([R1, R3, R2]);
  }

  /** Re-routing the initial DAG onto [r1, r2] switches r1-r3 off and r1-r2 on. */
  lemma RerouteOntoR1R2(dag: Dag)
    requires dag == InitialDag()
    ensures Reroute(dag, [R1, R2]) == ReroutedDag()
  {
    RerouteOntoR1R2Keys(dag);
    RerouteOntoR1R2Flags(dag);
    IsReroutedDag(Reroute(dag, [R1, R2]));
  }

  lemma RerouteOntoR1R2Keys(dag: Dag)
    requires dag == InitialDag()
    ensures Reroute(dag, [R1, R2]).Keys == ReroutedDag().Keys
  {
    var path := [R1, R2];
    assert PathEdges(path) == [Edge(R1, R2)];
    RerouteKeysAndFlags(dag, path);
  }

  lemma RerouteOntoR1R2Flags(dag: Dag)
    requires dag == InitialDag()
    ensures var r := Reroute(dag, [R1, R2]);
            && r[Edge(R1, R3)] == EdgeData(false, true)
            && r[Edge(R3, R2)] == EdgeData(true, false)
            && r[Edge(R1, R2)] == EdgeData(true, false)
  {
    NamesDiffer();
    RerouteOntoR1R2Edge(dag, Edge(R1, R3));
    RerouteOntoR1R2Edge(dag, Edge(R3, R2));
    RerouteOntoR1R2Edge(dag, Edge(R1, R2));
  }

  /** One edge of the re-route onto [r1, r2]: on the path it is switched on, out of r1 off, elsewhere kept. */
  lemma RerouteOntoR1R2Edge(dag: Dag, e: Edge)
    requires e in dag
    ensures var r := Reroute(dag, [R1, R2]);
            && e in r
            && r[e].ongoingFlows == dag[e].ongoingFlows
            && r[e].active == (e == Edge(R1, R2) || (dag[e].active && e.src != R1 && e.src != R2))
  {
    var path := [R1, R2];
    assert PathEdges(path) == [Edge(R1, R2)];
    RerouteEdge(dag, path, e);
  }

  lemma IsReroutedDag(m: Dag)
    requires m.Keys == ReroutedDag().Keys
    requires m[Edge(R1, R3)] == EdgeData(false, true)
    requires m[Edge(R3, R2)] == EdgeData(true, false)
    requires m[Edge(R1, R2)] == EdgeData(true, false)
    ensures m == ReroutedDag()
  {
  }

  lemma PushedIsActivePart(dag: Dag)
    requires dag == ReroutedDag()
    ensures ActiveDag(dag) == PushedDag()
  {
    NamesDiffer();
  }

  /** The flow does not fit on its current path, so the re-route branch runs. */
  lemma DispatchReallocates(s: State, found: Path, refreshed: set<Lie>)
    ensures Dispatch(Topology(0, 8), s, NewFlow(), [[R1, R3, R2]], Some(found), refreshed)
         == Reallocate(s, D1, NewFlow(), [[R1, R3, R2]], Some(found), refreshed)
  {
    CurrentPathIsFull();
  }

  /** Re-route scenario, store: the re-routed DAG replaces the initial one. */
  lemma ScenarioRerouteStores(s: State, refreshed: set<Lie>)
    requires CurrentDag(s.dags, D1) == InitialDag()
    ensures Dispatch(Topology(0, 8), s, NewFlow(), [[R1, R3, R2]], Some([R1, R2, D1]), refreshed).dags
         == s.dags[D1 := ReroutedDag()]
  {
    var found := [R1, R2, D1];
    DispatchReallocates(s, found, refreshed);
    assert DropLast(found) == [R1, R2];
    RerouteOntoR1R2(CurrentDag(s.dags, D1));
  }

  /** Re-route scenario, push: the southbound manager receives the active part of the re-routed DAG. */
  lemma ScenarioReroutePushes(s: State, refreshed: set<Lie>)
    requires CurrentDag(s.dags, D1) == InitialDag()
    ensures Dispatch(Topology(0, 8), s, NewFlow(), [[R1, R3, R2]], Some([R1, R2, D1]), refreshed).fwdDags
         == s.fwdDags[D1 := PushedDag()]
  {
    var found := [R1, R2, D1];
    DispatchReallocates(s, found, refreshed);
    assert DropLast(found) == [R1, R2];
    RerouteOntoR1R2(CurrentDag(s.dags, D1));
    PushedIsActivePart(ReroutedDag());
  }

  /** Re-route scenario, southbound and record side: the one lie for d1 is withdrawn. */
  lemma ScenarioRerouteSouthbound(s: State, refreshed: set<Lie>)
    requires LiesFromPrefix(s.lies, D1) == {Lie(D1, "f1", 1)}
    ensures var r := Dispatch(Topology(0, 8), s, NewFlow(), [[R1, R3, R2]], Some([R1, R2, D1]), refreshed);
            && |r.trace| == |s.trace| + 5 && r.trace[|s.trace| + 1] == RemovedLies({Lie(D1, "f1", 1)})
            && r.lies == refreshed && r.refreshes == s.refreshes + 1
            && r.allocations == WithEntry(s.allocations, D1, NewFlow(), [[R1, R2]])
  {
    var found := [R1, R2, D1];
    DispatchReallocates(s, found, refreshed);
    RerouteSouthboundOrder(s, D1, NewFlow(), [[R1, R3, R2]], found, refreshed);
    assert DropLast(found) == [R1, R2];
  }

  /**
   * Re-route scenario: r1-r3 carries 8, so the flow does not fit on the
   * current path r1-r3-r2. Whatever else the controller holds, r1-r2 becomes
   * r1's only active edge while r3 keeps forwarding to r2, the new DAG is
   * stored and its active part pushed, the one lie for d1 is withdrawn, the
   * manager is refreshed once (its lies become the recomputed ones), and the
   * flow is recorded against [r1, r2].
   */
  lemma ScenarioReroute(s: State, refreshed: set<Lie>)
    requires CurrentDag(s.dags, D1) == InitialDag()
    requires LiesFromPrefix(s.lies, D1) == {Lie(D1, "f1", 1)}
    ensures var r := Dispatch(Topology(0, 8), s, NewFlow(), [[R1, R3, R2]], Some([R1, R2, D1]), refreshed);
            && r.dags == s.dags[D1 := ReroutedDag()]
            && r.fwdDags == s.fwdDags[D1 := PushedDag()]
            && |r.trace| == |s.trace| + 5 && r.trace[|s.trace| + 1] == RemovedLies({Lie(D1, "f1", 1)})
            && r.lies == refreshed && r.refreshes == s.refreshes + 1
            && r.allocations == WithEntry(s.allocations, D1, NewFlow(), [[R1, R2]])
  {
    ScenarioRerouteStores(s, refreshed);
    ScenarioReroutePushes(s, refreshed);
    ScenarioRerouteSouthbound(s, refreshed);
  }

  /** With r1-r3 carrying 8, it is the only link that cannot take 5 more. */
  lemma OnlyR1R3IsFull()
    ensures FullEdges(Topology(0, 8), 5) == {Edge(R1, R3)}
  {
    NamesDiffer();
  }

  /** Among the edges of the pruned initial DAG, only r1-r3 carries an ongoing flow. */
  lemma PrunedOngoingFlows(dag: Dag)
    requires dag == InitialDag()
    ensures Edge(R1, R3) in PruneOffPath(dag, [R1, R2]) && PruneOffPath(dag, [R1, R2])[Edge(R1, R3)].ongoingFlows
  {
    NamesDiffer();
  }

  /**
   * The re-route runs into the case the source only logs as needing longer
   * prefix fibbing: r1-r3 cannot take 5 more and carries an ongoing flow to
   * d1, so the decision reports it; being an edge out of r1 that is not on
   * the new path, it is switched off all the same.
   */
  lemma ScenarioReportsOngoingFullEdge(s: State)
    requires CurrentDag(s.dags, D1) == InitialDag()
    ensures ReallocationDecision(Topology(0, 8), s, D1, NewFlow(), Some([R1, R2, D1]))
         == Rerouted([R1, R2], {Edge(R1, R3)})
    ensures !Reroute(CurrentDag(s.dags, D1), [R1, R2])[Edge(R1, R3)].active
  {
    var found := [R1, R2, D1];
    assert DropLast(found) == [R1, R2];
    OnlyR1R3IsFull();
    PrunedOngoingFlows(CurrentDag(s.dags, D1));
    RerouteOntoR1R2(CurrentDag(s.dags, D1));
  }

  /** With both links out of r1 carrying 8, r1 cannot reach d1 over links with room for 5. */
  lemma NoCongestionFreeRoute()
    ensures ShortestPathResult(WithoutFullEdges(Topology(8, 8), 5), R1, D1, None)
  {
    NamesDiffer();
    var g := WithoutFullEdges(Topology(8, 8), 5);
    assert g == map[Edge(R3, R2) := Link(10, 0, 3), Edge(R2, D1) := Link(10, 0, 1)];
    NoExitNoPath(g, R1, D1);
  }

  lemma BothPathsFull()
    ensures !CanAllocateFlow(Topology(8, 8), NewFlow(), [[R1, R3, R2]])
  {
    NamesDiffer();
    assert [R1, R3, R2] in [[R1, R3, R2]];
    assert PathEdges([R1, R3, R2]) == [Edge(R1, R3), Edge(R3, R2)];
    assert Edge(R1, R3) in PathEdges([R1, R3, R2]);
  }

  /**
   * Fallback scenario: both links out of r1 carry 8, so the flow fits neither on its
   * current path nor on any other; it is recorded against its current path
   * and nothing else changes.
   */
  lemma ScenarioFallback(s: State, refreshed: set<Lie>)
    ensures ShortestPathResult(WithoutFullEdges(Topology(8, 8), 5), R1, D1, None)
    ensures var r := Dispatch(Topology(8, 8), s, NewFlow(), [[R1, R3, R2]], None, refreshed);
            && r.dags == s.dags && r.fwdDags == s.fwdDags
            && r.lies == s.lies && r.refreshes == s.refreshes
            && r.allocations == WithEntry(s.allocations, D1, NewFlow(), [[R1, R3, R2]])
            && r.trace == s.trace + [Recorded(D1, NewFlow(), [[R1, R3, R2]])]
  {
    NoCongestionFreeRoute();
    BothPathsFull();
    FallbackRecordsOnly(s, D1, NewFlow(), [[R1, R3, R2]], refreshed);
  }
}
