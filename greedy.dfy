/**
 * Policy A ("Knapsack Approach"): each vehicle goes to the road with the least
 * load ratio, the first such road on ties, and its weight is added to that
 * road with no capacity check.
 */
module Greedy {
  import opened Options
  import opened Roads
  import opened Vehicles
  import opened Assignments

  /** `k` is a minimum of `keys` and no earlier entry is as small. */
  predicate IsFirstMin(keys: seq<real>, k: nat) {
    && k < |keys|
    && (forall j :: 0 <= j < |keys| ==> keys[k] <= keys[j])
    && (forall j :: 0 <= j < k ==> keys[k] < keys[j])
  }

  /** The scan of `min(..., key=...)`: `best` is the index kept so far and `i` the next one to look at. */
  function FirstMinFrom(keys: seq<real>, best: nat, i: nat): (k: nat)
    requires best < i <= |keys|
    ensures best <= k < |keys|
    decreases |keys| - i
  {
    if i == |keys| then best
    else if keys[i] < keys[best] then FirstMinFrom(keys, i, i + 1)
    else FirstMinFrom(keys, best, i + 1)
  }


  /** If `best` is the first minimum of the first `i` keys, the scan ends at the first minimum of all of them. */
  lemma {:induction false} FirstMinFromCorrect(keys: seq<real>, best: nat, i: nat)
    requires best < i <= |keys|
    requires forall j :: 0 <= j < i ==> keys[best] <= keys[j]
    requires forall j :: 0 <= j < best ==> keys[best] < keys[j]
    ensures IsFirstMin(keys, FirstMinFrom(keys, best, i))
    decreases |keys| - i
  {
    if i < |keys| {
      if keys[i] < keys[best] {
        FirstMinFromCorrect(keys, i, i + 1);
      } else {
        FirstMinFromCorrect(keys, best, i + 1);
      }
    }
  }

  /** Python's `min` with a key: the least key is attained at the result, and at no earlier position. */
  function FirstMin(keys: seq<real>): (k: nat)
    requires |keys| > 0
    ensures IsFirstMin(keys, k)
  {
    FirstMinFromCorrect(keys, 0, 1);
    FirstMinFrom(keys, 0, 1)
  }

  /** The first `i` vehicles of the batch placed, starting from `loads` and an empty dictionary. */
  function GreedyUpTo(loads: seq<int>, caps: seq<int>, names: seq<string>, vehicles: seq<Vehicle>, i: nat): (p: Placement)
    requires |loads| == |caps| == |names| && NonZero(caps) && |loads| > 0 && i <= |vehicles|
    ensures |p.loads| == |loads|
    decreases i, 0
  {
    if i == 0 then Placement(loads, map[])
    else Assign(GreedyUpTo(loads, caps, names, vehicles, i - 1), names, vehicles[i - 1], Some(GreedyPick(loads, caps, names, vehicles, i - 1)))
  }

  /** The road given to vehicle `i`: the first least-ratio road once the earlier vehicles are placed. */
  function GreedyPick(loads: seq<int>, caps: seq<int>, names: seq<string>, vehicles: seq<Vehicle>, i: nat): (k: nat)
    requires |loads| == |caps| == |names| && NonZero(caps) && |loads| > 0 && i < |vehicles|
    ensures k < |loads|
    decreases i, 1
  {
    FirstMin(Keys(GreedyUpTo(loads, caps, names, vehicles, i).loads, caps))
  }

  /** One more vehicle: the placement after vehicle `i` in terms of the one before it. */
  lemma {:induction false} GreedyStep(loads: seq<int>, caps: seq<int>, names: seq<string>, vehicles: seq<Vehicle>, i: nat, before: Placement, k: nat)
    requires |loads| == |caps| == |names| && NonZero(caps) && |loads| > 0 && i < |vehicles|
    requires before == GreedyUpTo(loads, caps, names, vehicles, i) && k == GreedyPick(loads, caps, names, vehicles, i)
    ensures GreedyUpTo(loads, caps, names, vehicles, i + 1)
         == Placement(before.loads[k := before.loads[k] + vehicles[i].weight], before.assignments[vehicles[i].id := names[k]])
  {
  }

  /**
   * Vehicle `i` of the batch is given a road: the first road of least ratio
   * at that moment; that road gains exactly the vehicle's weight, whatever its
   * capacity, the other roads are unchanged and the vehicle's id now maps to
   * that road's name.
   */
  lemma {:induction false} GreedyChoice(loads: seq<int>, caps: seq<int>, names: seq<string>, vehicles: seq<Vehicle>, i: nat)
    requires |loads| == |caps| == |names| && NonZero(caps) && |loads| > 0 && i < |vehicles|
    ensures var before, after := GreedyUpTo(loads, caps, names, vehicles, i), GreedyUpTo(loads, caps, names, vehicles, i + 1);
      var k := GreedyPick(loads, caps, names, vehicles, i);
      && IsFirstMin(Keys(before.loads, caps), k)
      && after.loads[k] == before.loads[k] + vehicles[i].weight
      && (forall j :: 0 <= j < |loads| && j != k ==> after.loads[j] == before.loads[j])
      && after.assignments == before.assignments[vehicles[i].id := names[k]]
  {
    var before := GreedyUpTo(loads, caps, names, vehicles, i);
    GreedyStep(loads, caps, names, vehicles, i, before, GreedyPick(loads, caps, names, vehicles, i));
  }

  /** Total load grows by the total weight of the vehicles placed. */
  lemma {:induction false} GreedyConserves(loads: seq<int>, caps: seq<int>, names: seq<string>, vehicles: seq<Vehicle>, i: nat)
    requires |loads| == |caps| == |names| && NonZero(caps) && |loads| > 0 && i <= |vehicles|
    ensures Sum(GreedyUpTo(loads, caps, names, vehicles, i).loads) == Sum(loads) + SumTo(Weights(vehicles), i)
  {
    if i > 0 {
      GreedyConserves(loads, caps, names, vehicles, i - 1);
      var prev := GreedyUpTo(loads, caps, names, vehicles, i - 1);
      var k := GreedyPick(loads, caps, names, vehicles, i - 1);
      GreedyStep(loads, caps, names, vehicles, i - 1, prev, k);
      SumUpdate(prev.loads, k, prev.loads[k] + vehicles[i - 1].weight);
    }
  }

  /** No admission control: a batch heavier than the free room leaves some road over capacity. */
  lemma {:induction false} GreedyOverflows(loads: seq<int>, caps: seq<int>, names: seq<string>, vehicles: seq<Vehicle>)
    requires |loads| == |caps| == |names| && NonZero(caps) && |loads| > 0
    requires Sum(loads) + Sum(Weights(vehicles)) > Sum(caps)
    ensures exists j :: 0 <= j < |loads| && GreedyUpTo(loads, caps, names, vehicles, |vehicles|).loads[j] > caps[j]
  {
    var after := GreedyUpTo(loads, caps, names, vehicles, |vehicles|).loads;
    GreedyConserves(loads, caps, names, vehicles, |vehicles|);
    assert Sum(after) == Sum(loads) + Sum(Weights(vehicles));
    if forall j :: 0 <= j < |loads| ==> after[j] <= caps[j] {
      SumToMonotone(after, caps, |after|);
    }
  }

  /** Every vehicle of the batch gets an entry, keyed by its id, and there are no others. */
  lemma {:induction false} GreedyKeys(loads: seq<int>, caps: seq<int>, names: seq<string>, vehicles: seq<Vehicle>, i: nat)
    requires |loads| == |caps| == |names| && NonZero(caps) && |loads| > 0 && i <= |vehicles|
    ensures GreedyUpTo(loads, caps, names, vehicles, i).assignments.Keys == set j | 0 <= j < i :: vehicles[j].id
  {
    if i > 0 {
      GreedyKeys(loads, caps, names, vehicles, i - 1);
      var prev := GreedyUpTo(loads, caps, names, vehicles, i - 1);
      GreedyStep(loads, caps, names, vehicles, i - 1, prev, GreedyPick(loads, caps, names, vehicles, i - 1));
      var s, s' := set j | 0 <= j < i :: vehicles[j].id, set j | 0 <= j < i - 1 :: vehicles[j].id;
      assert s == s' + {vehicles[i - 1].id} by {
        forall id | id in s ensures id in s' + {vehicles[i - 1].id} {
          var j :| 0 <= j < i && vehicles[j].id == id;
        }
      }
    }
  }

  /** Every entry names one of the roads. */
  lemma {:induction false} GreedyValues(loads: seq<int>, caps: seq<int>, names: seq<string>, vehicles: seq<Vehicle>, i: nat)
    requires |loads| == |caps| == |names| && NonZero(caps) && |loads| > 0 && i <= |vehicles|
    ensures var m := GreedyUpTo(loads, caps, names, vehicles, i).assignments;
      forall id :: id in m ==> m[id] in names
  {
    if i > 0 {
      GreedyValues(loads, caps, names, vehicles, i - 1);
      var prev := GreedyUpTo(loads, caps, names, vehicles, i - 1);
      GreedyStep(loads, caps, names, vehicles, i - 1, prev, GreedyPick(loads, caps, names, vehicles, i - 1));
    }
  }

  /** With distinct ids, each vehicle's entry names the road it was given. */
  lemma {:induction false} GreedyEntry(loads: seq<int>, caps: seq<int>, names: seq<string>, vehicles: seq<Vehicle>, n: nat, i: nat)
    requires |loads| == |caps| == |names| && NonZero(caps) && |loads| > 0 && n <= |vehicles|
    requires forall a, b :: 0 <= a < b < |vehicles| ==> vehicles[a].id != vehicles[b].id
    requires i < n
    ensures var m := GreedyUpTo(loads, caps, names, vehicles, n).assignments;
      vehicles[i].id in m && m[vehicles[i].id] == names[GreedyPick(loads, caps, names, vehicles, i)]
  {
    var prev := GreedyUpTo(loads, caps, names, vehicles, n - 1);
    GreedyStep(loads, caps, names, vehicles, n - 1, prev, GreedyPick(loads, caps, names, vehicles, n - 1));
    if i < n - 1 {
      GreedyEntry(loads, caps, names, vehicles, n - 1, i);
    }
  }
}
