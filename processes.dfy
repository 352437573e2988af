/**
 * What one vehicle process does: the road each policy chooses on the
 * one-vehicle batch, when the lookup of the vehicle's entry raises, the
 * double reservation on the chosen road, and the floored release.
 */
module Processes {
  import opened Options
  import opened Roads
  import opened Vehicles
  import opened Assignments
  import opened Greedy
  import opened Sorting
  import opened Balance
  import opened Engine

  /** Under Policy A the vehicle always gets a road: the first one of least ratio. */
  lemma {:induction false} KnapsackPick(c: Config, loads: seq<int>, v: Vehicle)
    requires ConfigOk(c) && |loads| == |c.caps| && Knapsack(c)
    ensures var k := DispatchPick(c, loads, v); k.Some? && IsFirstMin(Keys(loads, c.caps), k.value)
  {
  }

  /**
   * Under Policy B the vehicle gets no road exactly when no road has room,
   * and otherwise the road with room that comes first by (ratio, list position).
   */
  lemma {:induction false} BalancedPick(c: Config, loads: seq<int>, v: Vehicle)
    requires ConfigOk(c) && |loads| == |c.caps| && !Knapsack(c)
    ensures var k, keys := DispatchPick(c, loads, v), Keys(loads, c.caps);
      && (k.None? <==> NoRoom(c, loads, v.weight))
      && forall r :: 0 <= r < |loads| ==>
           (k == Some(r) <==> LeastFitting(loads, c.caps, keys, v.weight, r))
  {
    var keys := Keys(loads, c.caps);
    var k := DispatchPick(c, loads, v);
    forall r | 0 <= r < |loads| && LeastFitting(loads, c.caps, keys, v.weight, r) ensures k == Some(r) {
      assert LeastFitting(loads, c.caps, keys, v.weight, k.value);
    }
  }

  /**
   * A process raises at the lookup of its entry exactly under Policy B when
   * no road has room; it then changes nothing but the failure record, and a
   * process that does not raise leaves the failure record alone and is held.
   */
  lemma {:induction false} StartRaises(c: Config, s: World, v: Vehicle)
    requires ConfigOk(c) && Shaped(c, s)
    ensures var r := Start(c, s, v);
      && (|r.held| == |s.held| <==> !Knapsack(c) && NoRoom(c, s.loads, v.weight))
      && (|r.held| == |s.held| ==> r == s.(failure := Raise(s.failure, v.id)))
      && (|r.held| != |s.held| ==> r.failure == s.failure && |r.held| == |s.held| + 1)
  {
    if Knapsack(c) {
      KnapsackPick(c, s.loads, v);
    } else {
      BalancedPick(c, s.loads, v);
    }
  }

  /**
   * With distinct road names a start that does not raise puts twice the
   * vehicle's weight on the road the policy chose, once in the policy and
   * once after the lookup, changes no other road and holds the process
   * against that road.
   */
  lemma {:induction false} StartDoubles(c: Config, s: World, v: Vehicle)
    requires ConfigOk(c) && Shaped(c, s) && DistinctNames(c.names)
    requires DispatchPick(c, s.loads, v).Some?
    ensures var k := DispatchPick(c, s.loads, v).value;
      Start(c, s, v) == s.(loads := s.loads[k := s.loads[k] + 2 * v.weight], held := s.held + [Hold(v, k)])
  {
    var k := DispatchPick(c, s.loads, v).value;
    var j := IndexOf(c.names, c.names[k]);
    assert j == k;
  }

  /**
   * The two outcomes of a start in terms of the policy call: without an entry
   * for the vehicle only the failure record changes beside the policy's
   * loads; with one, the process is held against the first road of that name,
   * which gains the weight once more.
   */
  lemma StartCases(c: Config, s: World, v: Vehicle)
    requires ConfigOk(c) && Shaped(c, s)
    ensures var p := Dispatch(c, s.loads, v);
      v.id !in p.assignments ==> Start(c, s, v) == s.(loads := p.loads, failure := Raise(s.failure, v.id))
    ensures var p := Dispatch(c, s.loads, v);
      v.id in p.assignments ==>
        (&& p.assignments[v.id] in c.names
         && var j := IndexOf(c.names, p.assignments[v.id]);
            Start(c, s, v) == s.(loads := p.loads[j := p.loads[j] + v.weight], held := s.held + [Hold(v, j)]))
  {
  }

  /**
   * Resuming the oldest held process: its road's new load is the old load
   * less the weight, or 0 if that would be negative, so it is never
   * negative; the road's history gains exactly one entry, the ratio of the
   * new load; no other road changes.
   */
  lemma {:induction false} ReleaseFloors(c: Config, s: World)
    requires ConfigOk(c) && Shaped(c, s) && |s.held| > 0
    ensures var h, r := s.held[0], Release(c, s);
      var j, load := h.road, Release(c, s).loads[h.road];
      && load >= 0 && load >= s.loads[j] - h.vehicle.weight
      && (load == 0 || load == s.loads[j] - h.vehicle.weight)
      && r.histories[j] == s.histories[j] + [Ratio(load, c.caps[j])]
      && (forall k :: 0 <= k < |c.caps| && k != j ==> r.loads[k] == s.loads[k] && r.histories[k] == s.histories[k])
  {
  }
}
