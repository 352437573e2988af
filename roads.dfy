/**
 * Roads: named counters of current load, bounded by a capacity, each with an
 * append-only history of load ratios.
 */
module Roads {

  /** The congestion ratio `load / capacity`, computed exactly. */
  function Ratio(load: int, capacity: int): real
    requires capacity != 0
  {
    load as real / capacity as real
  }

  class Road {
    const name: string
    const capacity: int
    var currentLoad: int
    var history: seq<real>

    constructor (name: string, capacity: int)
      ensures this.name == name && this.capacity == capacity
      ensures currentLoad == 0 && history == []
    {
      this.name := name;
      this.capacity := capacity;
      currentLoad := 0;
      history := [];
    }
  }

  /** No road object appears twice among the first `n` of the list. */
  predicate DistinctUpTo(roads: seq<Road>, n: nat)
    requires n <= |roads|
  {
    n == 0 || ((forall i :: 0 <= i < n - 1 ==> roads[i] != roads[n - 1]) && DistinctUpTo(roads, n - 1))
  }

  /** No road object appears twice in the list. */
  predicate Distinct(roads: seq<Road>) {
    DistinctUpTo(roads, |roads|)
  }

  lemma {:induction false} DistinctUpToAt(roads: seq<Road>, n: nat, i: nat, j: nat)
    requires n <= |roads| && DistinctUpTo(roads, n) && i < j < n
    ensures roads[i] != roads[j]
  {
    if j < n - 1 {
      DistinctUpToAt(roads, n - 1, i, j);
    }
  }

  /** Two different positions of a Distinct list hold different roads. */
  lemma {:induction false} DistinctAt(roads: seq<Road>, i: nat, j: nat)
    requires Distinct(roads) && i < |roads| && j < |roads| && i != j
    ensures roads[i] != roads[j]
  {
    if i < j {
      DistinctUpToAt(roads, |roads|, i, j);
    } else {
      DistinctUpToAt(roads, |roads|, j, i);
    }
  }

  /** No two roads share a name. */
  predicate DistinctNames(names: seq<string>) {
    forall i, j :: 0 <= i < j < |names| ==> names[i] != names[j]
  }

  /** No capacity is zero, so every ratio is defined. */
  predicate NonZero(caps: seq<int>) {
    forall i :: 0 <= i < |caps| ==> caps[i] != 0
  }

  /** Every load is within its road's capacity. */
  predicate WithinCapacity(loads: seq<int>, caps: seq<int>)
    requires |loads| == |caps|
  {
    forall i :: 0 <= i < |loads| ==> loads[i] <= caps[i]
  }

  // Snapshots of a list of roads, as values.

  function LoadsUpTo(roads: seq<Road>, n: nat): (r: seq<int>)
    requires n <= |roads|
    reads roads
    ensures |r| == n && forall i :: 0 <= i < n ==> r[i] == roads[i].currentLoad
  {
    if n == 0 then [] else LoadsUpTo(roads, n - 1) + [roads[n - 1].currentLoad]
  }

  function Loads(roads: seq<Road>): (r: seq<int>)
    reads roads
    ensures |r| == |roads| && forall i :: 0 <= i < |roads| ==> r[i] == roads[i].currentLoad
  {
    LoadsUpTo(roads, |roads|)
  }

  function HistoriesUpTo(roads: seq<Road>, n: nat): (r: seq<seq<real>>)
    requires n <= |roads|
    reads roads
    ensures |r| == n && forall i :: 0 <= i < n ==> r[i] == roads[i].history
  {
    if n == 0 then [] else HistoriesUpTo(roads, n - 1) + [roads[n - 1].history]
  }

  function Histories(roads: seq<Road>): (r: seq<seq<real>>)
    reads roads
    ensures |r| == |roads| && forall i :: 0 <= i < |roads| ==> r[i] == roads[i].history
  {
    HistoriesUpTo(roads, |roads|)
  }

  function CapsUpTo(roads: seq<Road>, n: nat): (r: seq<int>)
    requires n <= |roads|
    ensures |r| == n && forall i :: 0 <= i < n ==> r[i] == roads[i].capacity
  {
    if n == 0 then [] else CapsUpTo(roads, n - 1) + [roads[n - 1].capacity]
  }

  function Caps(roads: seq<Road>): (r: seq<int>)
    ensures |r| == |roads| && forall i :: 0 <= i < |roads| ==> r[i] == roads[i].capacity
  {
    CapsUpTo(roads, |roads|)
  }

  function NamesUpTo(roads: seq<Road>, n: nat): (r: seq<string>)
    requires n <= |roads|
    ensures |r| == n && forall i :: 0 <= i < n ==> r[i] == roads[i].name
  {
    if n == 0 then [] else NamesUpTo(roads, n - 1) + [roads[n - 1].name]
  }

  function Names(roads: seq<Road>): (r: seq<string>)
    ensures |r| == |roads| && forall i :: 0 <= i < |roads| ==> r[i] == roads[i].name
  {
    NamesUpTo(roads, |roads|)
  }

  /** The sort key of every road: its current ratio. */
  function Keys(loads: seq<int>, caps: seq<int>): (r: seq<real>)
    requires |loads| == |caps| && NonZero(caps)
    ensures |r| == |loads|
  {
    seq(|loads|, i requires 0 <= i < |loads| => Ratio(loads[i], caps[i]))
  }

  /** The sum of the first `n` entries. */
  function SumTo(xs: seq<int>, n: nat): int
    requires n <= |xs|
  {
    if n == 0 then 0 else SumTo(xs, n - 1) + xs[n - 1]
  }

  function Sum(xs: seq<int>): int {
    SumTo(xs, |xs|)
  }

  /** Changing entry `k` changes every prefix sum that covers it by the difference. */
  lemma {:induction false} SumToUpdate(xs: seq<int>, k: nat, v: int, n: nat)
    requires k < |xs| && n <= |xs|
    ensures SumTo(xs[k := v], n) == SumTo(xs, n) + (if k < n then v - xs[k] else 0)
  {
    if n > 0 {
      SumToUpdate(xs, k, v, n - 1);
    }
  }

  lemma {:induction false} SumUpdate(xs: seq<int>, k: nat, v: int)
    requires k < |xs|
    ensures Sum(xs[k := v]) == Sum(xs) - xs[k] + v
  {
    SumToUpdate(xs, k, v, |xs|);
  }

  /** A pointwise smaller-or-equal sequence has smaller-or-equal prefix sums. */
  lemma {:induction false} SumToMonotone(xs: seq<int>, ys: seq<int>, n: nat)
    requires |xs| == |ys| && n <= |xs|
    requires forall i :: 0 <= i < |xs| ==> xs[i] <= ys[i]
    ensures SumTo(xs, n) <= SumTo(ys, n)
  {
    if n > 0 {
      SumToMonotone(xs, ys, n - 1);
    }
  }

  /** The sum of a non-empty list is the sum of all but its last entry, plus that entry. */
  lemma {:induction false} SumPrefix(xs: seq<int>)
    requires |xs| > 0
    ensures Sum(xs) == Sum(xs[..|xs| - 1]) + xs[|xs| - 1]
  {
    SumToPrefix(xs, xs[..|xs| - 1], |xs| - 1);
  }

  lemma {:induction false} SumToPrefix(xs: seq<int>, ys: seq<int>, n: nat)
    requires n <= |ys| <= |xs| && forall i :: 0 <= i < |ys| ==> ys[i] == xs[i]
    ensures SumTo(xs, n) == SumTo(ys, n)
  {
    if n > 0 {
      SumToPrefix(xs, ys, n - 1);
    }
  }

  /** The roads' current loads are `loads`, read field by field. */
  predicate HasLoads(roads: seq<Road>, loads: seq<int>)
    reads roads
  {
    |loads| == |roads| && forall j :: 0 <= j < |roads| ==> roads[j].currentLoad == loads[j]
  }

  /** The roads' histories are `histories`, read field by field. */
  predicate HasHistories(roads: seq<Road>, histories: seq<seq<real>>)
    reads roads
  {
    |histories| == |roads| && forall j :: 0 <= j < |roads| ==> roads[j].history == histories[j]
  }

  /** `road.current_load += w` on road `k` of the list: only that road's load changes. */
  method AddLoad(roads: seq<Road>, k: nat, w: int, ghost loads: seq<int>, ghost histories: seq<seq<real>>)
    requires Distinct(roads) && k < |roads| && HasLoads(roads, loads) && HasHistories(roads, histories)
    modifies roads[k]
    ensures HasLoads(roads, loads[k := loads[k] + w]) && HasHistories(roads, histories)
  {
    forall j | 0 <= j < |roads| && j != k ensures roads[j] != roads[k] {
      DistinctAt(roads, j, k);
    }
    roads[k].currentLoad := roads[k].currentLoad + w;
  }
}
