/**
 * `TrafficSimulator` over the road objects. The event queue is reduced to
 * the list of processes held in their one-tick timeout, oldest first. Each
 * method is proved to leave the roads and the simulator in the state the
 * engine functions compute.
 */
module Simulator {
  import opened Options
  import opened Roads
  import opened Vehicles
  import opened Assignments
  import opened Arrivals
  import opened GreedyPolicy
  import opened BalancePolicy
  import opened Engine
  import opened Processes

  class TrafficSimulator {
    const roads: seq<Road>
    const timeWindow: nat
    /** The policy selector, `method` in the source: "1" for Policy A, anything else for Policy B. */
    const policy: string
    const peakHours: (real, real)
    const vehicleRate: int
    var vehicles: seq<Vehicle>
    /** The processes suspended in their hold, oldest first. */
    var held: seq<Hold>
    /** The id of the first vehicle whose process raised, if any. */
    var failure: Option<nat>
    /** The processes that have finished, oldest first. */
    ghost var completed: seq<Hold>

    /** The run's fixed parameters, read off the roads and the constructor's arguments. */
    function Setup(): Config {
      Config(Caps(roads), Names(roads), policy, timeWindow, peakHours.0, peakHours.1, vehicleRate)
    }

    ghost predicate Valid()
      reads this
    {
      && Distinct(roads) && ConfigOk(Setup())
      && forall i :: 0 <= i < |held| ==> held[i].road < |roads|
    }

    /** The simulator and its roads as one value. */
    ghost function State(): World
      reads this, roads
    {
      World(Loads(roads), Histories(roads), vehicles, held, completed, failure)
    }

    /** The simulator and its roads are in state `w`, field by field. */
    ghost predicate Is(w: World)
      reads this, roads
    {
      && HasLoads(roads, w.loads) && HasHistories(roads, w.histories)
      && vehicles == w.vehicles && held == w.held && completed == w.completed && failure == w.failure
    }

    lemma IsState(w: World)
      requires Is(w)
      ensures State() == w
    {
    }

    /** A new simulator over distinct road objects of non-zero capacity has no vehicles and nothing held. */
    constructor (roads: seq<Road>, timeWindow: nat, policy: string, peakHours: (real, real), vehicleRate: int)
      requires Distinct(roads) && ConfigOk(Config(Caps(roads), Names(roads), policy, timeWindow, peakHours.0, peakHours.1, vehicleRate))
      ensures Valid()
      ensures this.roads == roads && this.timeWindow == timeWindow && this.policy == policy
      ensures this.peakHours == peakHours && this.vehicleRate == vehicleRate
      ensures vehicles == [] && held == [] && completed == [] && failure == None
    {
      this.roads := roads;
      this.timeWindow := timeWindow;
      this.policy := policy;
      this.peakHours := peakHours;
      this.vehicleRate := vehicleRate;
      vehicles := [];
      held := [];
      completed := [];
      failure := None;
    }

    /** The generator expression `next(road for road in self.roads if road.name == name)`. */
    method FindRoad(name: string) returns (j: nat)
      requires name in Names(roads)
      ensures j == IndexOf(Names(roads), name)
    {
      ghost var names := Names(roads);
      j := 0;
      while roads[j].name != name
        invariant j < |roads| && forall t :: 0 <= t < j ==> names[t] != name
        decreases |roads| - j
      {
        j := j + 1;
      }
    }

    /** The policy call on the one-vehicle batch `[v]`, selected by `method`. */
    method CallPolicy(v: Vehicle, ghost loads: seq<int>, ghost histories: seq<seq<real>>) returns (assignments: map<nat, string>)
      requires Valid() && HasLoads(roads, loads) && HasHistories(roads, histories)
      modifies roads
      ensures var p := Dispatch(Setup(), loads, v);
        HasLoads(roads, p.loads) && HasHistories(roads, histories) && assignments == p.assignments
    {
      assert loads == Loads(roads) && histories == Histories(roads);
      if policy == "1" {
        assignments := OptimizeTrafficFlow(roads, [v]);
      } else {
        assignments := BalanceTrafficFlow(roads, [v]);
      }
      DispatchIsPolicy(Setup(), loads, v);
    }

    /** The lookup of the road by name and the second `+= weight` there; the process is then held. */
    method HoldProcess(v: Vehicle, name: string, ghost w: World)
      requires Valid() && Is(w) && name in Names(roads)
      modifies this, roads
      ensures var j := IndexOf(Names(roads), name);
        Valid() && Is(w.(loads := w.loads[j := w.loads[j] + v.weight], held := w.held + [Hold(v, j)]))
    {
      var j := FindRoad(name);
      AddLoad(roads, j, v.weight, w.loads, w.histories);
      held := held + [Hold(v, j)];
    }

    /** `vehicle_process` up to its `yield`. */
    method StartProcess(v: Vehicle)
      requires Valid()
      modifies this, roads
      ensures Valid() && Is(Start(Setup(), old(State()), v))
    {
      ghost var s := State();
      ghost var p := Dispatch(Setup(), s.loads, v);
      var assignments := CallPolicy(v, s.loads, s.histories);
      StartCases(Setup(), s, v);
      if v.id !in assignments {
        failure := Raise(failure, v.id);
      } else {
        HoldProcess(v, assignments[v.id], s.(loads := p.loads));
      }
    }

    /** `vehicle_process` after its `yield`, for the oldest held process. */
    method ResumeFirst()
      requires Valid() && |held| > 0
      modifies this, roads
      ensures Valid() && Is(Release(Setup(), old(State())))
    {
      var h := held[0];
      var road := roads[h.road];
      forall t | 0 <= t < |roads| && t != h.road
        ensures roads[t] != road
      {
        DistinctAt(roads, t, h.road);
      }
      road.currentLoad := if road.currentLoad - h.vehicle.weight > 0 then road.currentLoad - h.vehicle.weight else 0;
      road.history := road.history + [Ratio(road.currentLoad, road.capacity)];
      held := held[1..];
      completed := completed + [h];
    }

    /** `add_vehicle`: appends the vehicle and starts its process. */
    method AddVehicle(v: Vehicle)
      requires Valid()
      modifies this, roads
      ensures Valid() && Is(Add(Setup(), old(State()), v))
    {
      ghost var s := State();
      vehicles := vehicles + [v];
      assert State() == s.(vehicles := s.vehicles + [v]);
      StartProcess(v);
    }

    /** One pass of the hour loop of `generate_random_traffic`: pick `i` becomes a vehicle, numbered by the list length, and is added. */
    method GenerateOne(picks: seq<Pick>, i: nat, ghost s: World)
      requires Valid() && Shaped(Setup(), s) && i < |picks| && Is(ArriveUpTo(Setup(), s, picks, i))
      modifies this, roads
      ensures Valid() && Is(ArriveUpTo(Setup(), s, picks, i + 1))
    {
      IsState(ArriveUpTo(Setup(), s, picks, i));
      var v := NewVehicle(|vehicles|, picks[i]);
      AddVehicle(v);
      ArriveStep(Setup(), s, picks, i);
    }

    /** The hour loop of `generate_random_traffic`: a vehicle per pick, in order. */
    method GenerateHour(picks: seq<Pick>)
      requires Valid()
      modifies this, roads
      ensures Valid() && Is(ArriveUpTo(Setup(), old(State()), picks, |picks|))
    {
      ghost var s := State();
      var i := 0;
      while i < |picks|
        invariant i <= |picks| && Valid() && Is(ArriveUpTo(Setup(), s, picks, i))
      {
        GenerateOne(picks, i, s);
        i := i + 1;
      }
    }

    /** One simulated hour: the hour's vehicles arrive, then the processes held at its start resume in order. */
    method AdvanceHour(picks: seq<Pick>)
      requires Valid()
      modifies this, roads
      ensures Valid() && Is(Tick(Setup(), old(State()), picks))
    {
      ghost var s := State();
      var due := |held|;
      GenerateHour(picks);
      ghost var a := ArriveUpTo(Setup(), s, picks, |picks|);
      var k := 0;
      while k < due
        invariant k <= due <= |a.held| && Valid() && Is(ReleaseN(Setup(), a, k))
      {
        IsState(ReleaseN(Setup(), a, k));
        ResumeFirst();
        k := k + 1;
      }
    }

    /** One pass of the stepping loop: the tick of hour `hour`, on the hour's draws from `sample`; the rest of the run is left to the next hour. */
    method Step(sample: (nat, int) -> seq<Pick>, hour: nat)
      requires Valid() && hour <= timeWindow && failure.None?
      modifies this, roads
      ensures Valid() && RunFrom(Setup(), old(State()), sample, hour) == RunFrom(Setup(), State(), sample, hour + 1)
    {
      ghost var s := State();
      var picks := if hour < timeWindow then sample(hour, HourRate(hour, peakHours.0, peakHours.1, vehicleRate)) else [];
      AdvanceHour(picks);
      IsState(Tick(Setup(), s, picks));
      RunStep(Setup(), s, sample, hour);
    }

    /**
     * The generator and the stepping loop together: ticks `0 .. timeWindow`,
     * the hour's draws taken from `sample` at the hour's rate, stopping after
     * a tick in which a process raised. Returns the id of that vehicle, if any.
     */
    method Run(sample: (nat, int) -> seq<Pick>) returns (raised: Option<nat>)
      requires Valid()
      modifies this, roads
      ensures Valid() && Is(Engine.Run(Setup(), old(State()), sample)) && raised == failure
    {
      ghost var final := Engine.Run(Setup(), State(), sample);
      var hour := 0;
      while hour <= timeWindow && failure.None?
        invariant hour <= timeWindow + 1 && Valid() && RunFrom(Setup(), State(), sample, hour) == final
        decreases timeWindow + 1 - hour
      {
        Step(sample, hour);
        hour := hour + 1;
      }
      raised := failure;
    }
  }
}
