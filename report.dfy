/**
 * The per-road figures of the run report, computed from a road's history of
 * load ratios: the highest and lowest congestion in percent (0 for an empty
 * history), the number of entries above 70%, and the throughput estimate
 * `sum(ratio * capacity)`.
 */
module Report {
  import opened Roads

  /** The largest entry of a non-empty history: Python's `max`. */
  function MaxOf(h: seq<real>): (m: real)
    requires |h| > 0
    ensures (exists i :: 0 <= i < |h| && h[i] == m) && forall i :: 0 <= i < |h| ==> h[i] <= m
  {
    if |h| == 1 then h[0]
    else
      var m := MaxOf(h[..|h| - 1]);
      assert forall i :: 0 <= i < |h| - 1 ==> h[..|h| - 1][i] == h[i];
      if h[|h| - 1] > m then h[|h| - 1] else m
  }

  /** The smallest entry of a non-empty history: Python's `min`. */
  function MinOf(h: seq<real>): (m: real)
    requires |h| > 0
    ensures (exists i :: 0 <= i < |h| && h[i] == m) && forall i :: 0 <= i < |h| ==> m <= h[i]
  {
    if |h| == 1 then h[0]
    else
      var m := MinOf(h[..|h| - 1]);
      assert forall i :: 0 <= i < |h| - 1 ==> h[..|h| - 1][i] == h[i];
      if h[|h| - 1] < m then h[|h| - 1] else m
  }

  /** The peak congestion in percent; 0 when nothing was recorded. */
  function PeakCongestion(h: seq<real>): (r: real)
    ensures h == [] ==> r == 0.0
    ensures h != [] ==> (exists i :: 0 <= i < |h| && r == h[i] * 100.0) && forall i :: 0 <= i < |h| ==> h[i] * 100.0 <= r
  {
    if h == [] then 0.0 else MaxOf(h) * 100.0
  }

  /** The minimum congestion in percent; 0 when nothing was recorded. */
  function MinCongestion(h: seq<real>): (r: real)
    ensures h == [] ==> r == 0.0
    ensures h != [] ==> (exists i :: 0 <= i < |h| && r == h[i] * 100.0) && forall i :: 0 <= i < |h| ==> r <= h[i] * 100.0
  {
    if h == [] then 0.0 else MinOf(h) * 100.0
  }

  /** An entry counts as high congestion when its ratio is over 70%. */
  predicate High(x: real) {
    x > 0.7
  }

  /** The number of high-congestion entries. */
  function HighCongestionPeriods(h: seq<real>): (n: nat)
    ensures n <= |h|
  {
    if h == [] then 0 else HighCongestionPeriods(h[..|h| - 1]) + (if High(h[|h| - 1]) then 1 else 0)
  }

  /** The count over a concatenation is the sum of the counts, so recording one entry adds 0 or 1. */
  lemma {:induction false} HighCongestionAppend(a: seq<real>, b: seq<real>)
    ensures HighCongestionPeriods(a + b) == HighCongestionPeriods(a) + HighCongestionPeriods(b)
    decreases |b|
  {
    if b != [] {
      var b' := b[..|b| - 1];
      assert (a + b)[..|a + b| - 1] == a + b';
      HighCongestionAppend(a, b');
    } else {
      assert a + b == a;
    }
  }

  /** None of the entries is high exactly when the count is 0, and all of them exactly when it is the length. */
  lemma {:induction false} HighCongestionExtremes(h: seq<real>)
    ensures HighCongestionPeriods(h) == 0 <==> forall i :: 0 <= i < |h| ==> !High(h[i])
    ensures HighCongestionPeriods(h) == |h| <==> forall i :: 0 <= i < |h| ==> High(h[i])
    decreases |h|
  {
    if h != [] {
      var h' := h[..|h| - 1];
      HighCongestionExtremes(h');
      assert forall i :: 0 <= i < |h'| ==> h'[i] == h[i];
    }
  }

  /** The positions of the high-congestion entries. */
  function HighPositions(h: seq<real>): set<nat> {
    set i: nat | i < |h| && High(h[i])
  }

  /** The count is the number of entries over 70%, position by position. */
  lemma {:induction false} HighCongestionCount(h: seq<real>)
    ensures HighCongestionPeriods(h) == |HighPositions(h)|
    decreases |h|
  {
    if h != [] {
      var n := |h| - 1;
      var h' := h[..n];
      HighCongestionCount(h');
      var last: set<nat> := if High(h[n]) then {n} else {};
      assert HighPositions(h) == HighPositions(h') + last by {
        forall i: nat | i in HighPositions(h) ensures i in HighPositions(h') + last {
          if i < n {
            assert h'[i] == h[i];
          }
        }
        forall i: nat | i in HighPositions(h') ensures i in HighPositions(h) {
          assert h'[i] == h[i];
        }
      }
      assert HighPositions(h') * last == {};
    }
  }

  /** The throughput estimate: every ratio scaled back by the road's capacity; never negative for non-negative ratios and capacity. */
  function TotalVehicles(h: seq<real>, capacity: int): (r: real)
    ensures capacity >= 0 && (forall i :: 0 <= i < |h| ==> 0.0 <= h[i]) ==> r >= 0.0
  {
    if h == [] then 0.0 else TotalVehicles(h[..|h| - 1], capacity) + h[|h| - 1] * capacity as real
  }

  /**
   * When every entry is a ratio `load / capacity` of the road, the estimate is
   * exactly the sum of the recorded loads.
   */
  lemma {:induction false} TotalVehiclesOfLoads(loads: seq<int>, capacity: int, h: seq<real>)
    requires capacity != 0 && |h| == |loads|
    requires forall i :: 0 <= i < |h| ==> h[i] == Ratio(loads[i], capacity)
    ensures TotalVehicles(h, capacity) == Sum(loads) as real
    decreases |h|
  {
    if h != [] {
      var n := |h| - 1;
      TotalVehiclesOfLoads(loads[..n], capacity, h[..n]);
      SumPrefix(loads);
      assert h[n] * capacity as real == loads[n] as real;
    }
  }
}
