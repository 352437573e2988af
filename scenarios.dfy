/**
 * Two small runs worked out to the end: one vehicle under Policy A on two
 * empty roads, and two vehicles under Policy B on one road, where the
 * second reservation of the first vehicle overfills the road and leaves no
 * room for the second vehicle, whose process raises.
 */
module Scenarios {
  import opened Options
  import opened Vehicles
  import opened Roads
  import opened Balance
  import opened Engine

  /** One vehicle of weight 3 and priority 5 in hour 0, nothing later. */
  function OneTruck(hour: nat, rate: int): seq<Pick> {
    if hour == 0 then [Draw(2, 4)] else []
  }

  /** Two vehicles of weight 2 and priority 1 in hour 0, nothing later. */
  function TwoCars(hour: nat, rate: int): seq<Pick> {
    if hour == 0 then [Draw(1, 0), Draw(1, 0)] else []
  }

  /** Policy A on two roads of capacity 10, a one-hour window. */
  const TwoRoads := Config([10, 10], ["Mandela", "Portmore"], "1", 1, 8.0, 10.0, 20)
  const Truck := Vehicle(0, 3, 5)

  /** Hour 0: the truck takes the first road (both ratios are 0), which carries 6 while the process is held. */
  lemma KnapsackHourZero()
    ensures Tick(TwoRoads, World([0, 0], [[], []], [], [], [], None), HourPicks(TwoRoads, OneTruck, 0))
         == World([6, 0], [[], []], [Truck], [Hold(Truck, 0)], [], None)
  {
    var s := World([0, 0], [[], []], [], [], [], None);
    var picks := HourPicks(TwoRoads, OneTruck, 0);
    assert picks == [Draw(2, 4)];
    ArriveStep(TwoRoads, s, picks, 0);
    assert NewVehicle(0, picks[0]) == Truck;
    assert Keys([0, 0], [10, 10]) == [0.0, 0.0];
    assert DispatchPick(TwoRoads, [0, 0], Truck) == Some(0);
  }

  /** Hour 1, the last tick: nothing arrives and the truck's process resumes, leaving 3 and the ratio 0.3. */
  lemma KnapsackHourOne()
    ensures var t := World([6, 0], [[], []], [Truck], [Hold(Truck, 0)], [], None);
      Tick(TwoRoads, t, HourPicks(TwoRoads, OneTruck, 1)) == World([3, 0], [[0.3], []], [Truck], [], [Hold(Truck, 0)], None)
  {
    var t := World([6, 0], [[], []], [Truck], [Hold(Truck, 0)], [], None);
    assert HourPicks(TwoRoads, OneTruck, 1) == [];
    assert ArriveUpTo(TwoRoads, t, [], 0) == t;
    assert ReleaseN(TwoRoads, t, 1) == Release(TwoRoads, t);
    assert Ratio(3, 10) == 0.3;
    var h: seq<real> := t.histories[0] + [0.3];
    assert h == [0.3];
    assert t.histories[0 := h] == [[0.3], []];
  }

  /**
   * Policy A, two empty roads of capacity 10, a one-hour window: the vehicle
   * takes the first road, which carries 6 while the process is held, and
   * after the final tick carries 3 with one history entry 0.3; nothing is
   * left held and nothing raised.
   */
  lemma KnapsackScenario()
    ensures var r := Run(TwoRoads, World([0, 0], [[], []], [], [], [], None), OneTruck);
      && r.loads == [3, 0] && r.histories == [[0.3], []]
      && r.vehicles == [Truck] && r.held == [] && r.completed == [Hold(Truck, 0)]
      && r.failure == None
  {
    var s := World([0, 0], [[], []], [], [], [], None);
    var t1 := World([6, 0], [[], []], [Truck], [Hold(Truck, 0)], [], None);
    KnapsackHourZero();
    RunStep(TwoRoads, s, OneTruck, 0);
    KnapsackHourOne();
    RunStep(TwoRoads, t1, OneTruck, 1);
  }

  /**
   * Policy B, one empty road of capacity 3, a one-hour window: the first
   * vehicle fits (0 + 2 <= 3) and is given the road, but the process adds its
   * weight a second time, so the road carries 4, over its capacity. The
   * second vehicle then finds no room, gets no entry and its process raises;
   * the run stops after hour 0 with the first vehicle still held and no
   * history recorded.
   */
  lemma BalanceScenario()
    ensures var c := Config([3], ["Mandela"], "2", 1, 8.0, 10.0, 20);
      var r := Run(c, World([0], [[]], [], [], [], None), TwoCars);
      && r.failure == Some(1) && r.loads == [4] && r.loads[0] > c.caps[0]
      && r.histories == [[]] && r.held == [Hold(Vehicle(0, 2, 1), 0)] && r.completed == []
  {
    var c := Config([3], ["Mandela"], "2", 1, 8.0, 10.0, 20);
    var s := World([0], [[]], [], [], [], None);
    var v0, v1 := Vehicle(0, 2, 1), Vehicle(1, 2, 1);
    var picks := HourPicks(c, TwoCars, 0);
    assert picks == [Draw(1, 0), Draw(1, 0)];
    ArriveStep(c, s, picks, 0);
    assert NewVehicle(0, picks[0]) == v0;
    assert LeastFit([0], [3], 2) == Some(0);
    var a1 := World([4], [[]], [v0], [Hold(v0, 0)], [], None);
    assert ArriveUpTo(c, s, picks, 1) == a1;
    ArriveStep(c, s, picks, 1);
    assert NewVehicle(1, picks[1]) == v1;
    assert LeastFit([4], [3], 2) == None;
    var a2 := World([4], [[]], [v0, v1], [Hold(v0, 0)], [], Some(1));
    assert ArriveUpTo(c, s, picks, 2) == a2;
    assert Tick(c, s, picks) == a2;
    RunStep(c, s, TwoCars, 0);
  }

  /**
   * Policy B, one empty road of capacity 4, two vehicles of weight 2 in hour
   * 0: the first fits and the process's second reservation brings the road to
   * 4, its capacity. The second vehicle then finds no room and its process
   * raises, although with the first vehicle reserved only once (load 2) the
   * policy would have given it the road.
   */
  lemma BalanceTurnedAway()
    ensures var c := Config([4], ["Mandela"], "2", 1, 8.0, 10.0, 20);
      var r := Run(c, World([0], [[]], [], [], [], None), TwoCars);
      && r.failure == Some(1) && r.loads == [4] && r.held == [Hold(Vehicle(0, 2, 1), 0)]
      && LeastFit([2], c.caps, 2) == Some(0)
  {
    var c := Config([4], ["Mandela"], "2", 1, 8.0, 10.0, 20);
    var s := World([0], [[]], [], [], [], None);
    var v0, v1 := Vehicle(0, 2, 1), Vehicle(1, 2, 1);
    var picks := HourPicks(c, TwoCars, 0);
    assert picks == [Draw(1, 0), Draw(1, 0)];
    ArriveStep(c, s, picks, 0);
    assert NewVehicle(0, picks[0]) == v0;
    assert LeastFit([0], [4], 2) == Some(0);
    var a1 := World([4], [[]], [v0], [Hold(v0, 0)], [], None);
    assert ArriveUpTo(c, s, picks, 1) == a1;
    ArriveStep(c, s, picks, 1);
    assert NewVehicle(1, picks[1]) == v1;
    assert LeastFit([4], [4], 2) == None;
    var a2 := World([4], [[]], [v0, v1], [Hold(v0, 0)], [], Some(1));
    assert ArriveUpTo(c, s, picks, 2) == a2;
    assert Tick(c, s, picks) == a2;
    RunStep(c, s, TwoCars, 0);
    assert LeastFit([2], [4], 2) == Some(0);
  }
}
