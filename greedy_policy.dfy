/**
 * `optimize_traffic_flow` over the road objects: each vehicle goes to the
 * first road of least ratio, whose load is updated in place.
 */
module GreedyPolicy {
  import opened Options
  import opened Roads
  import opened Vehicles
  import opened Assignments
  import opened Greedy

  /**
   * The state of `optimize_traffic_flow` after its first `i` vehicles: the
   * roads carry the loads `GreedyUpTo` computes and the dictionary
   * holds its assignments.
   */
  predicate GreedyPlaced(roads: seq<Road>, vehicles: seq<Vehicle>, loads0: seq<int>, histories: seq<seq<real>>, i: nat,
                         assignments: map<nat, string>)
    reads roads
  {
    && Distinct(roads) && |loads0| == |roads| && NonZero(Caps(roads)) && |roads| > 0 && i <= |vehicles|
    && HasLoads(roads, GreedyUpTo(loads0, Caps(roads), Names(roads), vehicles, i).loads)
    && assignments == GreedyUpTo(loads0, Caps(roads), Names(roads), vehicles, i).assignments
    && HasHistories(roads, histories)
  }

  /** One pass of the loop body: vehicle `i` goes to the first least-ratio road, which gains its weight. */
  method PlaceVehicle(roads: seq<Road>, vehicles: seq<Vehicle>, ghost loads0: seq<int>, ghost histories: seq<seq<real>>, i: nat,
                      assignments: map<nat, string>) returns (assignments': map<nat, string>)
    requires i < |vehicles| && GreedyPlaced(roads, vehicles, loads0, histories, i, assignments)
    modifies roads
    ensures GreedyPlaced(roads, vehicles, loads0, histories, i + 1, assignments')
  {
    ghost var before := GreedyUpTo(loads0, Caps(roads), Names(roads), vehicles, i);
    assert Loads(roads) == before.loads;
    var k := FirstMin(Keys(Loads(roads), Caps(roads)));
    assignments' := assignments[vehicles[i].id := roads[k].name];
    AddLoad(roads, k, vehicles[i].weight, before.loads, histories);
    GreedyStep(loads0, Caps(roads), Names(roads), vehicles, i, before, k);
  }

  /**
   * `optimize_traffic_flow`: assigns every vehicle in turn and updates the
   * chosen road's load in place. Histories are not touched.
   */
  method OptimizeTrafficFlow(roads: seq<Road>, vehicles: seq<Vehicle>) returns (assignments: map<nat, string>)
    requires Distinct(roads) && NonZero(Caps(roads)) && |roads| > 0
    modifies roads
    ensures GreedyPlaced(roads, vehicles, old(Loads(roads)), old(Histories(roads)), |vehicles|, assignments)
  {
    ghost var loads0, histories := Loads(roads), Histories(roads);
    assignments := map[];
    var i := 0;
    while i < |vehicles|
      invariant 0 <= i <= |vehicles|
      invariant GreedyPlaced(roads, vehicles, loads0, histories, i, assignments)
    {
      assignments := PlaceVehicle(roads, vehicles, loads0, histories, i, assignments);
      i := i + 1;
    }
  }
}
