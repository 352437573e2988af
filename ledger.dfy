/**
 * The books of a run. Every held vehicle has put twice its weight on its
 * road and every completed vehicle once, so a release never needs the floor
 * at 0 and each completed vehicle leaves its weight on its road for good.
 * Each road's history is its starting history plus one ratio per vehicle
 * completed on it. Vehicles are numbered by position, and while nothing has
 * raised they are held or completed in generation order.
 */
module Ledger {
  import opened Options
  import opened Roads
  import opened Vehicles
  import opened Balance
  import opened Engine
  import opened Processes

  /** The total weight of the processes in `hs` on road `j`. */
  function Weight(hs: seq<Hold>, j: nat): nat {
    if hs == [] then 0
    else Weight(hs[..|hs| - 1], j) + (if hs[|hs| - 1].road == j then hs[|hs| - 1].vehicle.weight else 0)
  }

  /** The number of processes in `hs` on road `j`. */
  function Count(hs: seq<Hold>, j: nat): nat {
    if hs == [] then 0
    else Count(hs[..|hs| - 1], j) + (if hs[|hs| - 1].road == j then 1 else 0)
  }

  /** Weight and count over a concatenation are the sums over its parts. */
  lemma {:induction false} WeightAppend(a: seq<Hold>, b: seq<Hold>, j: nat)
    ensures Weight(a + b, j) == Weight(a, j) + Weight(b, j)
    ensures Count(a + b, j) == Count(a, j) + Count(b, j)
    decreases |b|
  {
    if b == [] {
      assert a + b == a;
    } else {
      var b' := b[..|b| - 1];
      assert (a + b)[..|a + b| - 1] == a + b';
      WeightAppend(a, b', j);
    }
  }

  /**
   * Road `j`'s load is its starting load plus the weight of each vehicle
   * completed on it plus twice the weight of each vehicle held on it, and its
   * history extends its starting history by one entry per completed vehicle.
   */
  predicate RoadAccounted(s: World, base: seq<int>, hist0: seq<seq<real>>, j: nat)
    requires j < |s.loads| == |base| && j < |s.histories| == |hist0|
  {
    && s.loads[j] == base[j] + Weight(s.completed, j) + 2 * Weight(s.held, j)
    && |s.histories[j]| == |hist0[j]| + Count(s.completed, j)
    && hist0[j] <= s.histories[j]
  }

  /** Every road is accounted for, from starting loads that are not negative. */
  predicate Accounted(c: Config, s: World, base: seq<int>, hist0: seq<seq<real>>) {
    && Shaped(c, s) && |base| == |c.caps| && |hist0| == |c.caps|
    && (forall j :: 0 <= j < |base| ==> base[j] >= 0)
    && (forall j :: 0 <= j < |c.caps| ==> RoadAccounted(s, base, hist0, j))
  }

  /** Vehicle `i` of the list has id `i`. */
  predicate Numbered(s: World) {
    forall i :: 0 <= i < |s.vehicles| ==> s.vehicles[i].id == i
  }

  /** While nothing has raised, the completed processes followed by the held ones are the vehicles' processes in generation order. */
  predicate InOrder(s: World) {
    s.failure.None? ==>
      && |s.completed| + |s.held| == |s.vehicles|
      && forall i :: 0 <= i < |s.vehicles| ==> (s.completed + s.held)[i].vehicle == s.vehicles[i]
  }

  /** All the books of a run, and under Policy A nothing has raised. */
  predicate Books(c: Config, s: World, base: seq<int>, hist0: seq<seq<real>>) {
    Accounted(c, s, base, hist0) && Numbered(s) && InOrder(s) && (Knapsack(c) ==> s.failure.None?)
  }

  /** `add_vehicle` for the next id keeps the books. */
  lemma {:induction false} AddKeeps(c: Config, s: World, v: Vehicle, base: seq<int>, hist0: seq<seq<real>>)
    requires ConfigOk(c) && DistinctNames(c.names) && Books(c, s, base, hist0) && v.id == |s.vehicles|
    ensures Books(c, Add(c, s, v), base, hist0)
  {
    var s' := s.(vehicles := s.vehicles + [v]);
    var r := Add(c, s, v);
    StartRaises(c, s', v);
    if |r.held| != |s.held| {
      if Knapsack(c) {
        KnapsackPick(c, s.loads, v);
      } else {
        BalancedPick(c, s.loads, v);
      }
      StartDoubles(c, s', v);
      var k := DispatchPick(c, s.loads, v).value;
      assert (s.held + [Hold(v, k)])[..|s.held|] == s.held;
      forall j | 0 <= j < |c.caps| ensures RoadAccounted(r, base, hist0, j) {
        assert RoadAccounted(s, base, hist0, j);
      }
      if s.failure.None? {
        assert s.completed + r.held == (s.completed + s.held) + [Hold(v, k)];
      }
    } else {
      forall j | 0 <= j < |c.caps| ensures RoadAccounted(r, base, hist0, j) {
        assert RoadAccounted(s, base, hist0, j);
      }
    }
  }

  /**
   * Resuming the oldest held process keeps the books, and its release is
   * exact: the road loses the whole weight without reaching the floor, and
   * its history gains the ratio of the new load.
   */
  lemma {:induction false} ReleaseKeeps(c: Config, s: World, base: seq<int>, hist0: seq<seq<real>>)
    requires ConfigOk(c) && Books(c, s, base, hist0) && |s.held| > 0
    ensures var h, r := s.held[0], Release(c, s);
      && s.loads[h.road] >= h.vehicle.weight
      && r.loads == s.loads[h.road := s.loads[h.road] - h.vehicle.weight]
      && r.histories == s.histories[h.road := s.histories[h.road] + [Ratio(s.loads[h.road] - h.vehicle.weight, c.caps[h.road])]]
      && Books(c, r, base, hist0)
  {
    var h, r := s.held[0], Release(c, s);
    assert s.held == [h] + s.held[1..];
    assert (s.completed + [h])[..|s.completed|] == s.completed;
    assert [h][..0] == [];
    forall j | 0 <= j < |c.caps| ensures RoadAccounted(r, base, hist0, j) && Weight(s.held, j) == Weight(r.held, j) + (if h.road == j then h.vehicle.weight else 0) {
      assert RoadAccounted(s, base, hist0, j);
      WeightAppend([h], s.held[1..], j);
    }
    assert RoadAccounted(s, base, hist0, h.road);
    assert Weight(s.held, h.road) >= h.vehicle.weight;
    if s.failure.None? {
      assert r.completed + r.held == s.completed + s.held;
    }
  }

  /** Resuming the `n` oldest held processes keeps the books. */
  lemma {:induction false} ReleaseNKeeps(c: Config, s: World, n: nat, base: seq<int>, hist0: seq<seq<real>>)
    requires ConfigOk(c) && Books(c, s, base, hist0) && n <= |s.held|
    ensures Books(c, ReleaseN(c, s, n), base, hist0)
  {
    if n > 0 {
      ReleaseNKeeps(c, s, n - 1, base, hist0);
      ReleaseKeeps(c, ReleaseN(c, s, n - 1), base, hist0);
    }
  }

  /** Generating an hour's vehicles keeps the books. */
  lemma {:induction false} ArriveKeeps(c: Config, s: World, picks: seq<Pick>, i: nat, base: seq<int>, hist0: seq<seq<real>>)
    requires ConfigOk(c) && DistinctNames(c.names) && Books(c, s, base, hist0) && i <= |picks|
    ensures Books(c, ArriveUpTo(c, s, picks, i), base, hist0)
  {
    if i > 0 {
      ArriveKeeps(c, s, picks, i - 1, base, hist0);
      ArriveStep(c, s, picks, i - 1);
      var r := ArriveUpTo(c, s, picks, i - 1);
      AddKeeps(c, r, NewVehicle(|r.vehicles|, picks[i - 1]), base, hist0);
    }
  }

  /** A tick keeps the books. */
  lemma {:induction false} TickKeeps(c: Config, s: World, picks: seq<Pick>, base: seq<int>, hist0: seq<seq<real>>)
    requires ConfigOk(c) && DistinctNames(c.names) && Books(c, s, base, hist0)
    ensures Books(c, Tick(c, s, picks), base, hist0)
  {
    ArriveKeeps(c, s, picks, |picks|, base, hist0);
    ReleaseNKeeps(c, ArriveUpTo(c, s, picks, |picks|), |s.held|, base, hist0);
  }

  /** The tick of a due hour keeps the books and hands the rest of the run to the next hour. */
  lemma {:induction false} HourKeeps(c: Config, s: World, sample: (nat, int) -> seq<Pick>, hour: nat, base: seq<int>, hist0: seq<seq<real>>)
    returns (t: World)
    requires ConfigOk(c) && DistinctNames(c.names) && Books(c, s, base, hist0) && hour <= c.window && s.failure.None?
    ensures Books(c, t, base, hist0) && RunFrom(c, s, sample, hour) == RunFrom(c, t, sample, hour + 1)
  {
    t := Tick(c, s, HourPicks(c, sample, hour));
    TickKeeps(c, s, HourPicks(c, sample, hour), base, hist0);
    RunStep(c, s, sample, hour);
  }

  /** The rest of a run keeps the books, and Policy A never raises. */
  lemma {:induction false} RunFromKeeps(c: Config, s: World, sample: (nat, int) -> seq<Pick>, hour: nat, base: seq<int>, hist0: seq<seq<real>>)
    requires ConfigOk(c) && DistinctNames(c.names) && Books(c, s, base, hist0)
    ensures Books(c, RunFrom(c, s, sample, hour), base, hist0)
    decreases c.window + 1 - hour
  {
    if hour <= c.window && s.failure.None? {
      var t := HourKeeps(c, s, sample, hour, base, hist0);
      RunFromKeeps(c, t, sample, hour + 1, base, hist0);
    }
  }

  /** The last tick generates nothing and resumes everything held. */
  lemma {:induction false} LastHourDrains(c: Config, s: World, sample: (nat, int) -> seq<Pick>)
    requires ConfigOk(c) && Shaped(c, s) && s.failure.None?
    ensures RunFrom(c, s, sample, c.window).held == []
  {
    var t := Tick(c, s, HourPicks(c, sample, c.window));
    assert HourPicks(c, sample, c.window) == [];
    assert t == ReleaseN(c, s, |s.held|);
    RunStep(c, s, sample, c.window);
    assert RunFrom(c, t, sample, c.window + 1) == t;
  }

  /** A due hour hands the rest of the run to the next hour. */
  lemma {:induction false} HourShaped(c: Config, s: World, sample: (nat, int) -> seq<Pick>, hour: nat)
    returns (t: World)
    requires ConfigOk(c) && Shaped(c, s) && hour <= c.window && s.failure.None?
    ensures Shaped(c, t) && RunFrom(c, s, sample, hour) == RunFrom(c, t, sample, hour + 1)
  {
    t := Tick(c, s, HourPicks(c, sample, hour));
    RunStep(c, s, sample, hour);
  }

  /** A run that reaches its last tick without raising ends with nothing held: the last tick resumes everything and generates nothing. */
  lemma {:induction false} RunFromDrains(c: Config, s: World, sample: (nat, int) -> seq<Pick>, hour: nat)
    requires ConfigOk(c) && Shaped(c, s) && hour <= c.window
    ensures var r := RunFrom(c, s, sample, hour); r.failure.None? ==> r.held == []
    decreases c.window - hour
  {
    if s.failure.None? {
      if hour < c.window {
        var t := HourShaped(c, s, sample, hour);
        RunFromDrains(c, t, sample, hour + 1);
      } else {
        LastHourDrains(c, s, sample);
      }
    }
  }

  /**
   * A run from fresh bookkeeping and loads that are not negative: every
   * release is exact and the books balance at the end; vehicle `i` has id
   * `i`; Policy A never raises; and a run in which nothing raised has
   * completed every vehicle, in generation order, with nothing left held,
   * so each road carries its starting load plus the weight of the vehicles
   * completed on it.
   */
  lemma {:induction false} RunBooks(c: Config, s: World, sample: (nat, int) -> seq<Pick>)
    requires ConfigOk(c) && DistinctNames(c.names) && Shaped(c, s)
    requires s.vehicles == [] && s.held == [] && s.completed == [] && s.failure == None
    requires forall j :: 0 <= j < |s.loads| ==> s.loads[j] >= 0
    ensures var r := Run(c, s, sample);
      && Accounted(c, r, s.loads, s.histories) && Numbered(r)
      && (Knapsack(c) ==> r.failure.None?)
      && (r.failure.None? ==>
            && r.held == [] && |r.completed| == |r.vehicles|
            && (forall i :: 0 <= i < |r.vehicles| ==> r.completed[i].vehicle == r.vehicles[i])
            && (forall j :: 0 <= j < |c.caps| ==> r.loads[j] == s.loads[j] + Weight(r.completed, j)))
  {
    forall j | 0 <= j < |c.caps| ensures RoadAccounted(s, s.loads, s.histories, j) {
      assert s.histories[j] <= s.histories[j];
    }
    RunFromKeeps(c, s, sample, 0, s.loads, s.histories);
    RunFromDrains(c, s, sample, 0);
    var r := Run(c, s, sample);
    if r.failure.None? {
      assert r.completed + r.held == r.completed;
      forall j | 0 <= j < |c.caps| ensures r.loads[j] == s.loads[j] + Weight(r.completed, j) {
        assert RoadAccounted(r, s.loads, s.histories, j);
      }
    }
  }
}
