/**
 * Policy B ("Balanced Traffic Approach"): the roads are sorted once, stably,
 * by load ratio; each vehicle then goes to the first road in that order with
 * room for its whole weight. A vehicle that no road has room for gets no
 * entry and changes nothing.
 */
module Balance {
  import opened Options
  import opened Roads
  import opened Vehicles
  import opened Assignments
  import opened Sorting

  /** Road `k` has room for weight `w`. */
  predicate Fits(loads: seq<int>, caps: seq<int>, k: nat, w: int)
    requires |loads| == |caps| && k < |loads|
  {
    loads[k] + w <= caps[k]
  }

  /** The inner loop from position `q` of `order`: the first position whose road has room. */
  function FirstFitFrom(loads: seq<int>, caps: seq<int>, order: seq<nat>, w: int, q: nat): (r: Option<nat>)
    requires |loads| == |caps| && InRange(order, |loads|) && q <= |order|
    ensures r.Some? ==> && q <= r.value < |order| && Fits(loads, caps, order[r.value], w)
                        && forall t {:trigger Fits(loads, caps, order[t], w)} :: q <= t < r.value ==> !Fits(loads, caps, order[t], w)
    ensures r.None? ==> forall t {:trigger Fits(loads, caps, order[t], w)} :: q <= t < |order| ==> !Fits(loads, caps, order[t], w)
    decreases |order| - q
  {
    if q == |order| then None
    else if Fits(loads, caps, order[q], w) then Some(q)
    else FirstFitFrom(loads, caps, order, w, q + 1)
  }

  /** The road a vehicle of weight `w` is given, if any: the one at the first position with room. */
  function BalancePick(loads: seq<int>, caps: seq<int>, order: seq<nat>, w: int): (c: Option<nat>)
    requires |loads| == |caps| && InRange(order, |loads|)
    ensures c.Some? ==> c.value < |loads|
  {
    match FirstFitFrom(loads, caps, order, w, 0)
    case None => None
    case Some(p) => Some(order[p])
  }

  /** `sorted(roads, key=ratio)`, as road indices: the order fixed at the start of the call. */
  function RatioOrder(loads: seq<int>, caps: seq<int>): (order: seq<nat>)
    requires |loads| == |caps| && NonZero(caps)
    ensures Permutation(order, |loads|) && LexOrdered(Keys(loads, caps), order)
  {
    StableSort(Keys(loads, caps))
  }

  /** The first `i` vehicles of the batch placed, starting from `loads` and an empty dictionary. */
  function BalanceUpTo(loads: seq<int>, caps: seq<int>, names: seq<string>, order: seq<nat>, vehicles: seq<Vehicle>, i: nat): (p: Placement)
    requires |loads| == |caps| == |names| && InRange(order, |loads|) && i <= |vehicles|
    ensures |p.loads| == |loads|
    decreases i, 0
  {
    if i == 0 then Placement(loads, map[])
    else Assign(BalanceUpTo(loads, caps, names, order, vehicles, i - 1), names, vehicles[i - 1],
                BalancePickAt(loads, caps, names, order, vehicles, i - 1))
  }

  /** The road given to vehicle `i`, if any, once the earlier vehicles are placed. */
  function BalancePickAt(loads: seq<int>, caps: seq<int>, names: seq<string>, order: seq<nat>, vehicles: seq<Vehicle>, i: nat): (c: Option<nat>)
    requires |loads| == |caps| == |names| && InRange(order, |loads|) && i < |vehicles|
    ensures c.Some? ==> c.value < |loads|
    decreases i, 1
  {
    BalancePick(BalanceUpTo(loads, caps, names, order, vehicles, i).loads, caps, order, vehicles[i].weight)
  }

  /** One more vehicle: the placement after vehicle `i` in terms of the one before it and the scan's result. */
  lemma {:induction false} BalanceStep(loads: seq<int>, caps: seq<int>, names: seq<string>, order: seq<nat>, vehicles: seq<Vehicle>, i: nat,
                                       before: Placement, r: Option<nat>)
    requires |loads| == |caps| == |names| && InRange(order, |loads|) && i < |vehicles|
    requires before == BalanceUpTo(loads, caps, names, order, vehicles, i)
    requires r == FirstFitFrom(before.loads, caps, order, vehicles[i].weight, 0)
    ensures r.Some? ==> var k := order[r.value];
      && BalancePickAt(loads, caps, names, order, vehicles, i) == Some(k)
      && Fits(before.loads, caps, k, vehicles[i].weight)
      && BalanceUpTo(loads, caps, names, order, vehicles, i + 1)
         == Placement(before.loads[k := before.loads[k] + vehicles[i].weight], before.assignments[vehicles[i].id := names[k]])
    ensures r.None? ==>
      && BalancePickAt(loads, caps, names, order, vehicles, i) == None
      && BalanceUpTo(loads, caps, names, order, vehicles, i + 1) == before
  {
  }

  /**
   * Scanning an order that lists every road once, sorted by `keys`, picks the
   * road with room that comes first by (key, index), and picks nothing
   * exactly when no road has room.
   */
  lemma {:induction false} FirstFitLeast(loads: seq<int>, caps: seq<int>, keys: seq<real>, order: seq<nat>, w: int)
    requires |loads| == |caps| == |keys| && Permutation(order, |loads|) && LexOrdered(keys, order)
    ensures var c := BalancePick(loads, caps, order, w);
      && (c.None? <==> forall j :: 0 <= j < |loads| ==> !Fits(loads, caps, j, w))
      && (forall k :: 0 <= k < |loads| ==>
            (c == Some(k) <==>
               (&& Fits(loads, caps, k, w)
                && forall j :: 0 <= j < |loads| && j != k && Fits(loads, caps, j, w) ==> Before(keys, k, j))))
  {
    var r := FirstFitFrom(loads, caps, order, w, 0);
    if r.Some? {
      var p := r.value;
      var k := order[p];
      forall j | 0 <= j < |loads| && j != k && Fits(loads, caps, j, w) ensures Before(keys, k, j) {
        assert j in order;
        var t :| 0 <= t < |order| && order[t] == j;
        assert p < t;
      }
      forall k' | 0 <= k' < |loads| && k' != k && Fits(loads, caps, k', w)
        ensures !forall j :: 0 <= j < |loads| && j != k' && Fits(loads, caps, j, w) ==> Before(keys, k', j)
      {
        assert Before(keys, k, k');
      }
    } else {
      forall j | 0 <= j < |loads| ensures !Fits(loads, caps, j, w) {
        assert j in order;
        var t :| 0 <= t < |order| && order[t] == j;
      }
    }
  }

  /**
   * The road with room for `w` that comes first by (key, index), found by one
   * scan in index order that keeps the best road with room seen so far; the
   * reference against which the sorted scan of the policy is checked.
   */
  function LeastFitFrom(loads: seq<int>, caps: seq<int>, keys: seq<real>, w: int, best: Option<nat>, i: nat): (r: Option<nat>)
    requires |loads| == |caps| == |keys| && i <= |loads| && (best.Some? ==> best.value < i)
    ensures r.Some? ==> r.value < |loads|
    decreases |loads| - i
  {
    if i == |loads| then best
    else if Fits(loads, caps, i, w) && (best.None? || keys[i] < keys[best.value]) then LeastFitFrom(loads, caps, keys, w, Some(i), i + 1)
    else LeastFitFrom(loads, caps, keys, w, best, i + 1)
  }

  /** Road `k` has room for `w` and comes Before every other road with room. */
  predicate LeastFitting(loads: seq<int>, caps: seq<int>, keys: seq<real>, w: int, k: nat)
    requires |loads| == |caps| == |keys| && k < |loads|
  {
    Fits(loads, caps, k, w) && forall j :: 0 <= j < |loads| && j != k && Fits(loads, caps, j, w) ==> Before(keys, k, j)
  }

  /** If `best` is the least road with room among the first `i`, the scan ends at the least road with room of all. */
  lemma {:induction false} LeastFitFromCorrect(loads: seq<int>, caps: seq<int>, keys: seq<real>, w: int, best: Option<nat>, i: nat)
    requires |loads| == |caps| == |keys| && i <= |loads| && (best.Some? ==> best.value < i)
    requires best.None? ==> forall j :: 0 <= j < i ==> !Fits(loads, caps, j, w)
    requires best.Some? ==> Fits(loads, caps, best.value, w)
    requires best.Some? ==> forall j :: 0 <= j < i && j != best.value && Fits(loads, caps, j, w) ==> Before(keys, best.value, j)
    ensures var r := LeastFitFrom(loads, caps, keys, w, best, i);
      && (r.None? <==> forall j :: 0 <= j < |loads| ==> !Fits(loads, caps, j, w))
      && (r.Some? ==> LeastFitting(loads, caps, keys, w, r.value))
    decreases |loads| - i
  {
    if i < |loads| {
      if Fits(loads, caps, i, w) && (best.None? || keys[i] < keys[best.value]) {
        if best.Some? {
          forall j | 0 <= j < i + 1 && j != i && Fits(loads, caps, j, w) ensures Before(keys, i, j) {
            if j != best.value {
              assert Before(keys, best.value, j);
            }
          }
        }
        LeastFitFromCorrect(loads, caps, keys, w, Some(i), i + 1);
      } else {
        LeastFitFromCorrect(loads, caps, keys, w, best, i + 1);
      }
    }
  }

  /**
   * The least road with room for `w` by (ratio, list position): nothing
   * exactly when no road has room.
   */
  function LeastFit(loads: seq<int>, caps: seq<int>, w: int): (r: Option<nat>)
    requires |loads| == |caps| && NonZero(caps)
    ensures r.Some? ==> r.value < |loads| && LeastFitting(loads, caps, Keys(loads, caps), w, r.value)
    ensures r.None? <==> forall j :: 0 <= j < |loads| ==> !Fits(loads, caps, j, w)
  {
    LeastFitFromCorrect(loads, caps, Keys(loads, caps), w, None, 0);
    LeastFitFrom(loads, caps, Keys(loads, caps), w, None, 0)
  }

  /** Scanning the roads sorted by ratio for the first one with room picks what the reference scan picks. */
  lemma {:induction false} BalancePickIsLeastFit(loads: seq<int>, caps: seq<int>, w: int)
    requires |loads| == |caps| && NonZero(caps)
    ensures BalancePick(loads, caps, RatioOrder(loads, caps), w) == LeastFit(loads, caps, w)
  {
    var keys := Keys(loads, caps);
    var c, r := BalancePick(loads, caps, RatioOrder(loads, caps), w), LeastFit(loads, caps, w);
    FirstFitLeast(loads, caps, keys, RatioOrder(loads, caps), w);
    if r.Some? {
      assert LeastFitting(loads, caps, keys, w, r.value);
    }
  }

  /**
   * Vehicle `i` of the batch: given a road, that road had room, gains exactly
   * the weight, stays within its capacity, is the first road with room by
   * (ratio at the start of the call, list position), and the vehicle's id now
   * maps to its name; given none, no road had room and nothing changes.
   */
  lemma {:induction false} BalanceChoice(loads: seq<int>, caps: seq<int>, names: seq<string>, vehicles: seq<Vehicle>, i: nat)
    requires |loads| == |caps| == |names| && NonZero(caps) && i < |vehicles|
    ensures var order := RatioOrder(loads, caps);
      var before, after := BalanceUpTo(loads, caps, names, order, vehicles, i), BalanceUpTo(loads, caps, names, order, vehicles, i + 1);
      var c, w := BalancePickAt(loads, caps, names, order, vehicles, i), vehicles[i].weight;
      && (c.Some? ==>
            && Fits(before.loads, caps, c.value, w) && after.loads[c.value] <= caps[c.value]
            && after.loads == before.loads[c.value := before.loads[c.value] + w]
            && after.assignments == before.assignments[vehicles[i].id := names[c.value]]
            && forall j :: 0 <= j < |loads| && j != c.value && Fits(before.loads, caps, j, w) ==>
                 Before(Keys(loads, caps), c.value, j))
      && (c.None? ==> after == before && forall j :: 0 <= j < |loads| ==> !Fits(before.loads, caps, j, w))
  {
    var order := RatioOrder(loads, caps);
    var before := BalanceUpTo(loads, caps, names, order, vehicles, i);
    BalanceStep(loads, caps, names, order, vehicles, i, before, FirstFitFrom(before.loads, caps, order, vehicles[i].weight, 0));
    FirstFitLeast(before.loads, caps, Keys(loads, caps), order, vehicles[i].weight);
  }

  /** Roads that start within capacity stay within capacity, whatever arrives. */
  lemma {:induction false} BalanceKeepsCapacity(loads: seq<int>, caps: seq<int>, names: seq<string>, order: seq<nat>, vehicles: seq<Vehicle>, i: nat)
    requires |loads| == |caps| == |names| && InRange(order, |loads|) && i <= |vehicles|
    requires WithinCapacity(loads, caps)
    ensures WithinCapacity(BalanceUpTo(loads, caps, names, order, vehicles, i).loads, caps)
  {
    if i > 0 {
      BalanceKeepsCapacity(loads, caps, names, order, vehicles, i - 1);
      var before := BalanceUpTo(loads, caps, names, order, vehicles, i - 1);
      BalanceStep(loads, caps, names, order, vehicles, i - 1, before, FirstFitFrom(before.loads, caps, order, vehicles[i - 1].weight, 0));
    }
  }

  /** The total weight of the first `i` vehicles that were given a road. */
  function PlacedWeight(loads: seq<int>, caps: seq<int>, names: seq<string>, order: seq<nat>, vehicles: seq<Vehicle>, i: nat): int
    requires |loads| == |caps| == |names| && InRange(order, |loads|) && i <= |vehicles|
  {
    if i == 0 then 0
    else PlacedWeight(loads, caps, names, order, vehicles, i - 1)
         + (if BalancePickAt(loads, caps, names, order, vehicles, i - 1).Some? then vehicles[i - 1].weight else 0)
  }

  /** Total load grows by the weight of the vehicles placed; the others leave no trace. */
  lemma {:induction false} BalanceConserves(loads: seq<int>, caps: seq<int>, names: seq<string>, order: seq<nat>, vehicles: seq<Vehicle>, i: nat)
    requires |loads| == |caps| == |names| && InRange(order, |loads|) && i <= |vehicles|
    ensures Sum(BalanceUpTo(loads, caps, names, order, vehicles, i).loads) == Sum(loads) + PlacedWeight(loads, caps, names, order, vehicles, i)
  {
    if i > 0 {
      BalanceConserves(loads, caps, names, order, vehicles, i - 1);
      var before := BalanceUpTo(loads, caps, names, order, vehicles, i - 1);
      var r := FirstFitFrom(before.loads, caps, order, vehicles[i - 1].weight, 0);
      BalanceStep(loads, caps, names, order, vehicles, i - 1, before, r);
      if r.Some? {
        var k := order[r.value];
        SumUpdate(before.loads, k, before.loads[k] + vehicles[i - 1].weight);
      }
    }
  }

  /** The ids of the first `i` vehicles that were given a road. */
  function PlacedIds(loads: seq<int>, caps: seq<int>, names: seq<string>, order: seq<nat>, vehicles: seq<Vehicle>, i: nat): set<nat>
    requires |loads| == |caps| == |names| && InRange(order, |loads|) && i <= |vehicles|
  {
    set j | 0 <= j < i && BalancePickAt(loads, caps, names, order, vehicles, j).Some? :: vehicles[j].id
  }

  /** The dictionary's keys are the ids of exactly the vehicles that were given a road. */
  lemma {:induction false} BalanceKeys(loads: seq<int>, caps: seq<int>, names: seq<string>, order: seq<nat>, vehicles: seq<Vehicle>, i: nat)
    requires |loads| == |caps| == |names| && InRange(order, |loads|) && i <= |vehicles|
    ensures BalanceUpTo(loads, caps, names, order, vehicles, i).assignments.Keys == PlacedIds(loads, caps, names, order, vehicles, i)
  {
    if i > 0 {
      BalanceKeys(loads, caps, names, order, vehicles, i - 1);
      var before := BalanceUpTo(loads, caps, names, order, vehicles, i - 1);
      var r := FirstFitFrom(before.loads, caps, order, vehicles[i - 1].weight, 0);
      BalanceStep(loads, caps, names, order, vehicles, i - 1, before, r);
      var s, s' := PlacedIds(loads, caps, names, order, vehicles, i), PlacedIds(loads, caps, names, order, vehicles, i - 1);
      var last: set<nat> := if r.Some? then {vehicles[i - 1].id} else {};
      forall id | id in s ensures id in s' + last {
        var j :| 0 <= j < i && BalancePickAt(loads, caps, names, order, vehicles, j).Some? && vehicles[j].id == id;
        if j < i - 1 {
          assert id in s';
        }
      }
      forall id | id in s' + last ensures id in s {
        if id in s' {
          var j :| 0 <= j < i - 1 && BalancePickAt(loads, caps, names, order, vehicles, j).Some? && vehicles[j].id == id;
          assert 0 <= j < i;
        }
      }
      assert s == s' + last;
      if r.Some? {
        var k := order[r.value];
        assert BalanceUpTo(loads, caps, names, order, vehicles, i).assignments == before.assignments[vehicles[i - 1].id := names[k]];
      }
    }
  }

  /** Every entry names one of the roads. */
  lemma {:induction false} BalanceValues(loads: seq<int>, caps: seq<int>, names: seq<string>, order: seq<nat>, vehicles: seq<Vehicle>, i: nat)
    requires |loads| == |caps| == |names| && InRange(order, |loads|) && i <= |vehicles|
    ensures var m := BalanceUpTo(loads, caps, names, order, vehicles, i).assignments;
      forall id :: id in m ==> m[id] in names
  {
    if i > 0 {
      BalanceValues(loads, caps, names, order, vehicles, i - 1);
      var before := BalanceUpTo(loads, caps, names, order, vehicles, i - 1);
      BalanceStep(loads, caps, names, order, vehicles, i - 1, before, FirstFitFrom(before.loads, caps, order, vehicles[i - 1].weight, 0));
    }
  }

  /**
   * With distinct ids, a vehicle has an entry exactly when it was given a
   * road, and the entry names that road.
   */
  lemma {:induction false} BalanceEntry(loads: seq<int>, caps: seq<int>, names: seq<string>, order: seq<nat>, vehicles: seq<Vehicle>, n: nat, i: nat)
    requires |loads| == |caps| == |names| && InRange(order, |loads|) && n <= |vehicles|
    requires forall a, b :: 0 <= a < b < |vehicles| ==> vehicles[a].id != vehicles[b].id
    requires i < n
    ensures var m, c := BalanceUpTo(loads, caps, names, order, vehicles, n).assignments, BalancePickAt(loads, caps, names, order, vehicles, i);
      && (vehicles[i].id in m <==> c.Some?)
      && (c.Some? ==> m[vehicles[i].id] == names[c.value])
  {
    var before := BalanceUpTo(loads, caps, names, order, vehicles, n - 1);
    BalanceStep(loads, caps, names, order, vehicles, n - 1, before, FirstFitFrom(before.loads, caps, order, vehicles[n - 1].weight, 0));
    if i < n - 1 {
      BalanceEntry(loads, caps, names, order, vehicles, n - 1, i);
    } else if BalancePickAt(loads, caps, names, order, vehicles, i).None? {
      BalanceKeys(loads, caps, names, order, vehicles, n - 1);
    }
  }
}
