/**
 * `balance_traffic_flow` over the road objects: the sort happens once, then
 * each vehicle's scan reads the roads and the chosen road's load is updated
 * in place.
 */
module BalancePolicy {
  import opened Options
  import opened Roads
  import opened Vehicles
  import opened Assignments
  import opened Sorting
  import opened Balance

  /**
   * The state of `balance_traffic_flow` after its first `i` vehicles: the
   * roads carry the loads `BalanceUpTo` computes and the dictionary
   * holds its assignments.
   */
  predicate BalancePlaced(roads: seq<Road>, vehicles: seq<Vehicle>, loads0: seq<int>, histories: seq<seq<real>>,
                          order: seq<nat>, i: nat, assignments: map<nat, string>)
    reads roads
  {
    && |loads0| == |roads| && InRange(order, |roads|) && i <= |vehicles|
    && HasLoads(roads, BalanceUpTo(loads0, Caps(roads), Names(roads), order, vehicles, i).loads)
    && assignments == BalanceUpTo(loads0, Caps(roads), Names(roads), order, vehicles, i).assignments
    && HasHistories(roads, histories)
  }

  /**
   * The inner `for road in roads_sorted` loop up to its `break`: the first
   * sorted position whose road has room for `w`, found without changing anything.
   */
  method FirstRoadWithRoom(roads: seq<Road>, order: seq<nat>, w: int) returns (r: Option<nat>)
    requires InRange(order, |roads|)
    ensures r == FirstFitFrom(Loads(roads), Caps(roads), order, w, 0)
  {
    ghost var loads, caps := Loads(roads), Caps(roads);
    var p := 0;
    while p < |order|
      invariant p <= |order|
      invariant forall t :: 0 <= t < p ==> !Fits(loads, caps, order[t], w)
    {
      var road := roads[order[p]];
      if road.currentLoad + w <= road.capacity {
        assert Fits(loads, caps, order[p], w);
        ghost var f := FirstFitFrom(loads, caps, order, w, 0);
        assert f == Some(p);
        return Some(p);
      }
      p := p + 1;
    }
    return None;
  }

  /** One pass of the outer loop: the scan, then the update at the road found, if any. */
  method FitVehicle(roads: seq<Road>, vehicles: seq<Vehicle>, ghost loads0: seq<int>, ghost histories: seq<seq<real>>,
                    order: seq<nat>, i: nat, assignments: map<nat, string>) returns (assignments': map<nat, string>)
    requires Distinct(roads) && i < |vehicles| && BalancePlaced(roads, vehicles, loads0, histories, order, i, assignments)
    modifies roads
    ensures BalancePlaced(roads, vehicles, loads0, histories, order, i + 1, assignments')
  {
    ghost var before := BalanceUpTo(loads0, Caps(roads), Names(roads), order, vehicles, i);
    assert Loads(roads) == before.loads;
    var r := FirstRoadWithRoom(roads, order, vehicles[i].weight);
    BalanceStep(loads0, Caps(roads), Names(roads), order, vehicles, i, before, r);
    if r.Some? {
      var k := order[r.value];
      assignments' := assignments[vehicles[i].id := roads[k].name];
      AddLoad(roads, k, vehicles[i].weight, before.loads, histories);
    } else {
      assignments' := assignments;
    }
  }

  /**
   * `balance_traffic_flow`: sorts the roads once by ratio, then gives each
   * vehicle in turn the first sorted road with room and adds its weight
   * there. Histories are not touched.
   */
  method BalanceTrafficFlow(roads: seq<Road>, vehicles: seq<Vehicle>) returns (assignments: map<nat, string>)
    requires Distinct(roads) && NonZero(Caps(roads))
    modifies roads
    ensures BalancePlaced(roads, vehicles, old(Loads(roads)), old(Histories(roads)), RatioOrder(old(Loads(roads)), Caps(roads)),
                          |vehicles|, assignments)
  {
    ghost var loads0, histories := Loads(roads), Histories(roads);
    var order := RatioOrder(Loads(roads), Caps(roads));
    assignments := map[];
    var i := 0;
    while i < |vehicles|
      invariant i <= |vehicles|
      invariant BalancePlaced(roads, vehicles, loads0, histories, order, i, assignments)
    {
      assignments := FitVehicle(roads, vehicles, loads0, histories, order, i, assignments);
      i := i + 1;
    }
  }
}
