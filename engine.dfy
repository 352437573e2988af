/**
 * The simulation engine of `TrafficSimulator`, as values. A run is a
 * sequence of ticks, one per simulated hour. In a tick the hour's vehicles
 * are generated and their processes start in generation order. Each start
 * calls the policy on the one vehicle, looks its road up by name and adds
 * the weight there a second time. Then the processes held since the
 * previous tick resume, oldest first. Each resume takes the weight off its
 * road, floored at 0, and records the road's ratio. A process whose vehicle
 * got no entry from the policy raises; the tick still runs to its end and
 * the run stops after it.
 */
module Engine {
  import opened Options
  import opened Roads
  import opened Vehicles
  import opened Assignments
  import opened Greedy
  import opened Sorting
  import opened Balance
  import opened Arrivals

  /** The fixed parameters of a run: the roads' capacities and names, the policy selector and the arrival schedule. */
  datatype Config = Config(caps: seq<int>, names: seq<string>, policy: string, window: nat,
                           peakStart: real, peakEnd: real, rate: int)

  /** A vehicle process suspended in its one-tick hold, with the list position of the road it will release. */
  datatype Hold = Hold(vehicle: Vehicle, road: nat)

  /**
   * The state of a run: the roads' loads and histories, the vehicles
   * generated so far, the processes held (oldest first), the processes that
   * have finished (in the order they finished) and the id of the first
   * vehicle whose process raised, if any.
   */
  datatype World = World(loads: seq<int>, histories: seq<seq<real>>, vehicles: seq<Vehicle>,
                         held: seq<Hold>, completed: seq<Hold>, failure: Option<nat>)

  /** Policy selector "1" selects Policy A; every other value selects Policy B. */
  predicate Knapsack(c: Config) {
    c.policy == "1"
  }

  /** Every ratio is defined, and Policy A has a road to take the minimum over. */
  predicate ConfigOk(c: Config) {
    |c.caps| == |c.names| && NonZero(c.caps) && (Knapsack(c) ==> |c.caps| > 0)
  }

  /** One load and one history per road, and every held process refers to a road. */
  predicate Shaped(c: Config, s: World) {
    && |s.loads| == |c.caps| && |s.histories| == |c.caps|
    && (forall i :: 0 <= i < |s.held| ==> s.held[i].road < |c.caps|)
  }

  /** No road has room for weight `w`. */
  predicate NoRoom(c: Config, loads: seq<int>, w: int)
    requires |loads| == |c.caps|
  {
    forall j :: 0 <= j < |loads| ==> !Fits(loads, c.caps, j, w)
  }

  /**
   * The road the policy call on the one-vehicle batch `[v]` gives `v`, if
   * any. Policy B's sorted scan is stated by the reference scan it is proved
   * to agree with.
   */
  function DispatchPick(c: Config, loads: seq<int>, v: Vehicle): (k: Option<nat>)
    requires ConfigOk(c) && |loads| == |c.caps|
    ensures k.Some? ==> k.value < |loads|
  {
    if Knapsack(c) then Some(FirstMin(Keys(loads, c.caps)))
    else LeastFit(loads, c.caps, v.weight)
  }

  /** The loads and the dictionary the policy call on `[v]` leaves. */
  function Dispatch(c: Config, loads: seq<int>, v: Vehicle): (p: Placement)
    requires ConfigOk(c) && |loads| == |c.caps|
    ensures |p.loads| == |loads|
  {
    Assign(Placement(loads, map[]), c.names, v, DispatchPick(c, loads, v))
  }

  /** `Dispatch` is what the policy function computes on the one-vehicle batch `[v]`. */
  lemma {:induction false} DispatchIsPolicy(c: Config, loads: seq<int>, v: Vehicle)
    requires ConfigOk(c) && |loads| == |c.caps|
    ensures Knapsack(c) ==> Dispatch(c, loads, v) == GreedyUpTo(loads, c.caps, c.names, [v], 1)
    ensures !Knapsack(c) ==> Dispatch(c, loads, v) == BalanceUpTo(loads, c.caps, c.names, RatioOrder(loads, c.caps), [v], 1)
  {
    if Knapsack(c) {
      GreedyStep(loads, c.caps, c.names, [v], 0, Placement(loads, map[]), GreedyPick(loads, c.caps, c.names, [v], 0));
    } else {
      var order := RatioOrder(loads, c.caps);
      BalancePickIsLeastFit(loads, c.caps, v.weight);
      BalanceStep(loads, c.caps, c.names, order, [v], 0, Placement(loads, map[]), FirstFitFrom(loads, c.caps, order, v.weight, 0));
    }
  }

  /** The first position holding `name`: the road `next(road for road in roads if road.name == name)` finds. */
  function IndexOf(names: seq<string>, name: string): (j: nat)
    requires name in names
    ensures j < |names| && names[j] == name && forall t :: 0 <= t < j ==> names[t] != name
  {
    if names[0] == name then 0
    else
      var j := IndexOf(names[1..], name);
      assert forall t :: 0 <= t < j ==> names[1..][t] == names[t + 1];
      1 + j
  }

  /** The failure record after vehicle `id`'s process raises: only the first failure is kept. */
  function Raise(failure: Option<nat>, id: nat): Option<nat> {
    if failure.None? then Some(id) else failure
  }

  /**
   * The first half of `vehicle_process`, up to its `yield`: the policy call,
   * the lookup of the vehicle's entry (a missing one raises), the lookup of
   * the road by that name and the second `+= weight` there; the process is
   * then held.
   */
  function Start(c: Config, s: World, v: Vehicle): (r: World)
    requires ConfigOk(c) && Shaped(c, s)
    ensures Shaped(c, r) && r.vehicles == s.vehicles && r.completed == s.completed && r.histories == s.histories
    ensures s.held <= r.held
  {
    var p := Dispatch(c, s.loads, v);
    if v.id !in p.assignments then
      s.(loads := p.loads, failure := Raise(s.failure, v.id))
    else
      var j := IndexOf(c.names, p.assignments[v.id]);
      s.(loads := p.loads[j := p.loads[j] + v.weight], held := s.held + [Hold(v, j)])
  }

  /** `add_vehicle`: the vehicle joins the list, then its process starts. */
  function Add(c: Config, s: World, v: Vehicle): (r: World)
    requires ConfigOk(c) && Shaped(c, s)
    ensures Shaped(c, r) && r.vehicles == s.vehicles + [v] && r.completed == s.completed && s.held <= r.held
  {
    Start(c, s.(vehicles := s.vehicles + [v]), v)
  }

  /** The inner loop of `generate_random_traffic` for one hour: the first `i` picks become vehicles, numbered by the list length. */
  function ArriveUpTo(c: Config, s: World, picks: seq<Pick>, i: nat): (r: World)
    requires ConfigOk(c) && Shaped(c, s) && i <= |picks|
    ensures Shaped(c, r) && |r.vehicles| == |s.vehicles| + i && r.completed == s.completed && s.held <= r.held
    decreases i, 2
  {
    if i == 0 then s else ArriveLast(c, s, picks, i)
  }

  /** At least one pick: the last of the first `i` arrives after the others. */
  function ArriveLast(c: Config, s: World, picks: seq<Pick>, i: nat): (r: World)
    requires ConfigOk(c) && Shaped(c, s) && 0 < i <= |picks|
    ensures Shaped(c, r) && |r.vehicles| == |s.vehicles| + i && r.completed == s.completed && s.held <= r.held
    decreases i, 1
  {
    ArriveAfter(c, s, picks, i)
  }

  /** Pick `i - 1` becomes the vehicle numbered by the list length once the picks before it have arrived. */
  function ArriveAfter(c: Config, s: World, picks: seq<Pick>, i: nat): (r: World)
    requires ConfigOk(c) && Shaped(c, s) && 0 < i <= |picks|
    ensures Shaped(c, r) && |r.vehicles| == |s.vehicles| + i && r.completed == s.completed && s.held <= r.held
    decreases i, 0
  {
    var r := ArriveUpTo(c, s, picks, i - 1);
    Add(c, r, NewVehicle(|r.vehicles|, picks[i - 1]))
  }

  /** One more pick arrives: it is added to the world the earlier picks left. */
  lemma ArriveStep(c: Config, s: World, picks: seq<Pick>, i: nat)
    requires ConfigOk(c) && Shaped(c, s) && i < |picks|
    ensures var r := ArriveUpTo(c, s, picks, i);
      ArriveUpTo(c, s, picks, i + 1) == Add(c, r, NewVehicle(|r.vehicles|, picks[i]))
  {
    assert ArriveUpTo(c, s, picks, i + 1) == ArriveLast(c, s, picks, i + 1);
    assert ArriveLast(c, s, picks, i + 1) == ArriveAfter(c, s, picks, i + 1);
  }

  /** The hour's vehicles join the list in draw order, numbered on from the list's length. */
  lemma {:induction false} ArriveVehicles(c: Config, s: World, picks: seq<Pick>, i: nat)
    requires ConfigOk(c) && Shaped(c, s) && i <= |picks|
    ensures ArriveUpTo(c, s, picks, i).vehicles == s.vehicles + NewVehicles(|s.vehicles|, picks[..i])
  {
    if i > 0 {
      ArriveVehicles(c, s, picks, i - 1);
      ArriveStep(c, s, picks, i - 1);
      assert picks[..i][..i - 1] == picks[..i - 1];
    }
  }

  /**
   * The second half of `vehicle_process`, for the oldest held process: its
   * road's load loses the weight, floored at 0, and the road's history gains
   * the new ratio.
   */
  function Release(c: Config, s: World): (r: World)
    requires ConfigOk(c) && Shaped(c, s) && |s.held| > 0
    ensures Shaped(c, r) && r.vehicles == s.vehicles && r.failure == s.failure
    ensures r.held == s.held[1..] && r.completed == s.completed + [s.held[0]]
  {
    var h := s.held[0];
    var j := h.road;
    var load := if s.loads[j] - h.vehicle.weight > 0 then s.loads[j] - h.vehicle.weight else 0;
    s.(loads := s.loads[j := load], histories := s.histories[j := s.histories[j] + [Ratio(load, c.caps[j])]],
       held := s.held[1..], completed := s.completed + [h])
  }

  /** The `n` oldest held processes resumed, oldest first. */
  function ReleaseN(c: Config, s: World, n: nat): (r: World)
    requires ConfigOk(c) && Shaped(c, s) && n <= |s.held|
    ensures Shaped(c, r) && r.vehicles == s.vehicles && r.failure == s.failure && r.held == s.held[n..]
  {
    if n == 0 then s else Release(c, ReleaseN(c, s, n - 1))
  }

  /** One simulated hour: the hour's vehicles arrive and start, then the processes held at the start of the hour resume. */
  function Tick(c: Config, s: World, picks: seq<Pick>): (r: World)
    requires ConfigOk(c) && Shaped(c, s)
    ensures Shaped(c, r) && |r.vehicles| == |s.vehicles| + |picks|
  {
    var a := ArriveUpTo(c, s, picks, |picks|);
    ReleaseN(c, a, |s.held|)
  }

  /**
   * The draws of hour `hour`: the random source is asked for a batch at the
   * hour's rate while the generator runs, and nothing arrives at the final
   * tick `window`.
   */
  function HourPicks(c: Config, sample: (nat, int) -> seq<Pick>, hour: nat): (picks: seq<Pick>)
    ensures hour >= c.window ==> picks == []
    ensures hour < c.window && IsPeak(hour, c.peakStart, c.peakEnd) ==> picks == sample(hour, c.rate)
    ensures hour < c.window && !IsPeak(hour, c.peakStart, c.peakEnd) ==> picks == sample(hour, TruncHalf(c.rate))
  {
    if hour < c.window then sample(hour, HourRate(hour, c.peakStart, c.peakEnd, c.rate)) else []
  }

  /**
   * The run from hour `hour` on: the clock is stepped while the next event is
   * due at most at `window`, so ticks run up to and including `window`, the
   * last one only resuming the vehicles of the final hour; the run stops
   * after a tick in which a process raised.
   */
  function RunFrom(c: Config, s: World, sample: (nat, int) -> seq<Pick>, hour: nat): (r: World)
    requires ConfigOk(c) && Shaped(c, s)
    ensures Shaped(c, r)
    decreases c.window + 1 - hour, 2
  {
    if hour > c.window || s.failure.Some? then s else RunOn(c, s, sample, hour)
  }

  /** The tick of hour `hour` is due: the hour's draws are taken. */
  function RunOn(c: Config, s: World, sample: (nat, int) -> seq<Pick>, hour: nat): (r: World)
    requires ConfigOk(c) && Shaped(c, s) && hour <= c.window
    ensures Shaped(c, r)
    decreases c.window + 1 - hour, 1
  {
    RunHour(c, s, sample, hour, HourPicks(c, sample, hour))
  }

  /** The tick of hour `hour` runs on the draws `picks`, and the run goes on from the next hour. */
  function RunHour(c: Config, s: World, sample: (nat, int) -> seq<Pick>, hour: nat, picks: seq<Pick>): (r: World)
    requires ConfigOk(c) && Shaped(c, s) && hour <= c.window
    ensures Shaped(c, r)
    decreases c.window + 1 - hour, 0
  {
    RunFrom(c, Tick(c, s, picks), sample, hour + 1)
  }

  /** A due tick runs on the hour's draws, and the run goes on from the next hour. */
  lemma RunStep(c: Config, s: World, sample: (nat, int) -> seq<Pick>, hour: nat)
    requires ConfigOk(c) && Shaped(c, s) && hour <= c.window && s.failure.None?
    ensures RunFrom(c, s, sample, hour) == RunFrom(c, Tick(c, s, HourPicks(c, sample, hour)), sample, hour + 1)
  {
    assert RunFrom(c, s, sample, hour) == RunOn(c, s, sample, hour);
    assert RunOn(c, s, sample, hour) == RunHour(c, s, sample, hour, HourPicks(c, sample, hour));
  }

  /** The whole run, from hour 0. */
  function Run(c: Config, s: World, sample: (nat, int) -> seq<Pick>): (r: World)
    requires ConfigOk(c) && Shaped(c, s)
    ensures Shaped(c, r)
  {
    RunFrom(c, s, sample, 0)
  }
}
