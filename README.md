# Traffic flow simulator: a Dafny model

This project models the core of a small traffic simulator. Vehicles arrive
hour by hour and are routed onto a list of roads. Each road has a name, a
capacity, a current load and a history of load ratios. Two routing policies
are available:

- **Policy A** ("Knapsack Approach") sends each vehicle to the road with the
  least `current_load / capacity`. Ties go to the first such road. It never
  checks capacity.
- **Policy B** ("Balanced Traffic Approach") sorts the roads once, stably, by
  that ratio. It then sends each vehicle to the first road in that order that
  has room for the vehicle's whole weight.

Each vehicle runs as a process of the event scheduler:

1. It calls the selected policy on the one-vehicle batch.
2. It looks up its own entry in the returned dictionary, then the road by
   name, and adds its weight there a second time.
3. It waits one simulated hour.
4. It takes the weight off the road, floored at 0, and appends the road's new
   ratio to the road's history.

A generator produces a Poisson number of vehicles per hour. The rate is full
inside the peak window (both ends included) and half, truncated, outside it.
The model also covers the traffic light's timer machine and the per-road
report figures.

`TrafficSimulation.py` and `MOD_3_Q1.py` are byte-for-byte copies of each
other, so one model covers both. Every line cited below holds in either file.

## Structure

- `options.dfy`, `vehicles.dfy`, `roads.dfy`: the entities.
  - `Road` is a class whose load and history are updated in place.
  - A vehicle is a value. Its weight and priority come from one draw of the
    random source.
- `assignments.dfy`: one pass of either policy's loop, as a value.
- `greedy.dfy`, `greedy_policy.dfy`: Policy A.
  - `Greedy` defines it as functions on `seq<int>` loads and proves its properties.
  - `GreedyPolicy` holds the in-place loop over the `Road` objects. It is proved against those functions.
- `sorting.dfy`, `balance.dfy`, `balance_policy.dfy`: Policy B, split the same way.
  - Python's built-in stable `sorted` is the insertion sort `StableSort`. It is proved to return a permutation of the roads ordered by (ratio, list position), ties in list order.
  - `LeastFit` is an independent one-pass reference for the policy's choice, and the sorted scan is proved to agree with it.
- `engine.dfy`: the scheduler's run as a function of the run's state.
  - `Start` is the first part of a process, up to the hold. `Release` is the part after the hold.
  - `ArriveUpTo` is one hour of the generator. `Tick` is one simulated hour. `RunFrom` / `Run` is the stepping loop.
- `processes.dfy` and `ledger.dfy`: what one process does, and the books a whole run keeps.
- `simulator.dfy`: the `TrafficSimulator` class. Every method is proved to leave the roads and the simulator in the state the engine functions compute.
- `arrivals.dfy`: the peak test, the hourly rate and the expected arrival counts.
- `light.dfy`: the traffic light.
- `report.dfy`: the report figures.
- `scenarios.dfy`: three small runs, worked out to their final state.

### The scheduler as ticks

The event scheduler is replaced by ticks, one per hour, derived from the
order in which the scheduler processes events. In the tick of hour `h`:

1. The generator produces hour `h`'s vehicles, numbered `len(vehicles)` at
   the moment each is made.
2. Each new vehicle's process starts at once, in generation order.
3. The processes that began their one-hour hold in hour `h - 1` resume,
   oldest first.

The stepping loop runs while the next event is due at most at `time_window`.
So ticks run for hours `0 .. time_window`, and the last tick only resumes the
vehicles of the final hour.

The random source is a parameter, `sample(hour, rate)`. It returns the
hour's draws, and its length is the Poisson count.

### Behaviour of the code worth knowing

- **A vehicle no road has room for under Policy B.** `balance_traffic_flow`
  then makes no entry for it, so `assignments[vehicle.id]` at line 111 raises
  `KeyError` in the vehicle's process. The model records the id of the first
  vehicle whose process raised. It finishes that tick, as the scheduler would,
  and the run stops there.
- **The weight is added twice.** The policy adds the vehicle's weight to the
  chosen road (lines 75 and 86), and the process adds it again at line 113.
  So a held vehicle puts twice its weight on its road, and a completed one
  leaves its weight there for good, since line 115 takes it off only once.
  This is proved as a run invariant in `Ledger`.
  - Because of this, Policy B can overfill a road: `Scenarios.BalanceScenario`.
    It can also turn away a vehicle that would have fitted had the first
    vehicle been reserved only once: `Scenarios.BalanceTurnedAway`.
- **The off-peak rate.** `int(vehicle_rate / 2)` at line 121 truncates toward
  zero. Dafny's `/` floors instead, and the two differ for a negative rate;
  the model truncates (`Arrivals.TruncHalf`).

## Model

| member | source | states |
|---|---|---|
| Roads.Road.constructor | TrafficSimulation.py:18-24 | a new road has the given name and capacity, load 0 and an empty history |
| Roads.AddLoad | TrafficSimulation.py:75 | `current_load += w` on one road of a list of distinct road objects changes that road's load by `w` and nothing else, no history included |
| Vehicles.NewVehicle | MOD_3_Q1.py:124-125 | a generated vehicle has the id it was given, a weight in {1, 2, 3} and a priority in 1..5 |
| Vehicles.NewVehicles | MOD_3_Q1.py:123-126 | the vehicles of one hour's draws are numbered consecutively from the starting id, in draw order |
| Vehicles.NewVehiclesAppend | MOD_3_Q1.py:119-126 | numbering two batches one after the other is the same as numbering their concatenation |
| Vehicles.LanesAlternate | MOD_3_Q1.py:33 | vehicles with consecutive ids are drawn in different lanes, y = 300 and y = 400 |
| Vehicles.GeneratedColour | MOD_3_Q1.py:34 | a generated vehicle is blue exactly when its priority was drawn as 3, 4 or 5, i.e. priority > 2 |
| Greedy.FirstMin | TrafficSimulation.py:73 | `min(roads, key=ratio)` returns a position of least ratio with no earlier position as small |
| Greedy.FirstMinFromCorrect | TrafficSimulation.py:73 | a partial `min` scan that holds the first minimum so far ends at the first minimum of the whole list |
| Greedy.GreedyUpTo | TrafficSimulation.py:70-76 | the placement after the first `i` vehicles of the batch keeps one load per road; what it holds is stated by the lemmas below |
| Greedy.GreedyPick | TrafficSimulation.py:73 | the road given to vehicle `i` is one of the roads; `GreedyChoice` states that it is a first least-ratio road |
| Greedy.GreedyChoice | TrafficSimulation.py:72-75 | each vehicle goes to a first least-ratio road; that road gains exactly its weight with no capacity check; other roads are unchanged |
| Greedy.GreedyConserves | TrafficSimulation.py:72-75 | the total load grows by exactly the total weight of the vehicles placed |
| Greedy.GreedyOverflows | TrafficSimulation.py:73-75 | a batch heavier than the total free room leaves some road over capacity |
| Greedy.GreedyKeys | TrafficSimulation.py:71-74 | the dictionary's keys are exactly the ids of the batch |
| Greedy.GreedyValues | TrafficSimulation.py:74 | every entry of the dictionary names one of the roads |
| Greedy.GreedyEntry | TrafficSimulation.py:72-74 | with distinct ids, each vehicle's entry names the road it was given |
| Assignments.Assign | TrafficSimulation.py:74-75 | one pass of a policy loop keeps one load per road |
| Assignments.AssignEffect | TrafficSimulation.py:85-86 | given no road nothing changes; given a road, only its load changes, by exactly the weight, the id is added mapped to the road's name, and every other entry is kept |
| GreedyPolicy.PlaceVehicle | TrafficSimulation.py:73-75 | one loop pass over the road objects performs the next step of `GreedyUpTo` |
| GreedyPolicy.OptimizeTrafficFlow | TrafficSimulation.py:70-76 | the roads end with the loads `GreedyUpTo` computes and the result is its dictionary; histories are untouched |
| Sorting.StableSort | TrafficSimulation.py:81 | `sorted` by ratio returns every road once, ascending by ratio, with ties in list order |
| Sorting.SortPrefixCorrect | TrafficSimulation.py:81 | once every index is inserted, the list holds every index once, ascending by key, ties in index order |
| Sorting.SortPrefixSorted | TrafficSimulation.py:81 | each insertion step keeps the prefix ordered by (ratio, position) |
| Sorting.InsertMembers | TrafficSimulation.py:81 | an insertion keeps every entry and adds exactly the new one |
| Balance.RatioOrder | TrafficSimulation.py:81 | the order fixed at the start of the call is a permutation of the roads ordered by (ratio, position) |
| Balance.BalanceUpTo | TrafficSimulation.py:79-88 | the placement after the first `i` vehicles keeps one load per road; what it holds is stated by the lemmas below |
| Balance.FirstFitFrom | TrafficSimulation.py:83-87 | the inner scan stops at the first sorted position whose road has room and skips only roads without room; it finds nothing exactly when no road from there has room |
| Balance.BalancePick | TrafficSimulation.py:83-87 | the road chosen, if any, is one of the roads |
| Balance.BalancePickAt | TrafficSimulation.py:83-87 | the road given to vehicle `i`, if any, is one of the roads; `BalanceChoice` states which |
| Balance.FirstFitLeast | TrafficSimulation.py:81-87 | scanning a sorted permutation picks the road with room that is least by (ratio, position), and picks nothing exactly when no road has room |
| Balance.LeastFitFromCorrect | TrafficSimulation.py:81-87 | the reference scan that keeps the best road with room so far ends at the least road with room |
| Balance.LeastFit | TrafficSimulation.py:81-87 | the reference choice is nothing exactly when no road has room, and otherwise the road with room least by (ratio, position) |
| Balance.BalancePickIsLeastFit | TrafficSimulation.py:81-87 | the sorted first-fit scan and the reference scan choose the same road |
| Balance.BalanceChoice | TrafficSimulation.py:81-87 | a vehicle given a road had room there, stays within capacity, gains exactly its weight there and precedes every other road with room by (ratio at the call's start, position); a vehicle given none found no room and changes nothing |
| Balance.BalanceKeepsCapacity | TrafficSimulation.py:84-86 | roads that start within capacity stay within capacity |
| Balance.BalanceConserves | TrafficSimulation.py:84-86 | the total load grows by the weight of the vehicles placed; the others leave no trace |
| Balance.BalanceKeys | TrafficSimulation.py:82-85 | the dictionary's keys are exactly the ids of the vehicles that were given a road |
| Balance.BalanceValues | TrafficSimulation.py:85 | every entry names one of the roads |
| Balance.BalanceEntry | TrafficSimulation.py:82-87 | with distinct ids, a vehicle has an entry exactly when it was given a road, and the entry names that road |
| BalancePolicy.FirstRoadWithRoom | TrafficSimulation.py:83-87 | the `for ... break` loop over the road objects returns the position `FirstFitFrom` finds |
| BalancePolicy.FitVehicle | TrafficSimulation.py:83-87 | one outer pass over the road objects performs the next step of `BalanceUpTo` |
| BalancePolicy.BalanceTrafficFlow | TrafficSimulation.py:79-88 | the roads are sorted once at the start, then end with the loads `BalanceUpTo` computes, and the result is its dictionary; histories are untouched |
| Engine.DispatchPick | TrafficSimulation.py:105-109 | the road the policy call on `[vehicle]` gives is one of the roads |
| Engine.Dispatch | TrafficSimulation.py:105-109 | the policy call on `[vehicle]` keeps one load per road |
| Engine.DispatchIsPolicy | TrafficSimulation.py:105-109 | the one-vehicle dispatch is exactly Policy A's, or Policy B's, result on `[vehicle]`, as `method` selects |
| Engine.IndexOf | TrafficSimulation.py:112 | `next(road for road in roads if road.name == name)` finds the first road with that name |
| Engine.Start | TrafficSimulation.py:105-114 | starting a process keeps the vehicle list, the finished processes and the histories, and can only append to the held processes |
| Engine.Add | TrafficSimulation.py:101-103 | `add_vehicle` appends the vehicle to the list, then starts its process |
| Engine.ArriveUpTo | MOD_3_Q1.py:123-126 | the hour's generator adds one vehicle per draw and never drops a held process |
| Engine.ArriveLast | MOD_3_Q1.py:123-126 | the same as `ArriveUpTo`, for at least one draw |
| Engine.ArriveAfter | MOD_3_Q1.py:123-126 | the same as `ArriveUpTo`, once the last draw is added |
| Engine.ArriveVehicles | MOD_3_Q1.py:123-126 | the hour's vehicles join the list in draw order, numbered on from the list's length |
| Engine.Release | TrafficSimulation.py:114-116 | resuming removes the oldest held process and appends it to the finished ones; the vehicle list and the failure record do not change |
| Engine.ReleaseN | TrafficSimulation.py:114-116 | resuming `n` processes removes exactly the `n` oldest held ones |
| Engine.Tick | TrafficSimulation.py:118-127 | one simulated hour adds one vehicle per draw |
| Engine.HourPicks | MOD_3_Q1.py:119-122 | hours before the window draw at the full rate in a peak hour and at the truncated half otherwise; the final tick draws nothing |
| Engine.RunFrom | TrafficSimulation.py:257 | the rest of a run keeps one load and one history per road; its content is stated in `Ledger` |
| Engine.RunOn | TrafficSimulation.py:257 | the same as `RunFrom`, for a due tick |
| Engine.RunHour | TrafficSimulation.py:257 | the same as `RunFrom`, for a due tick on given draws |
| Engine.Run | TrafficSimulation.py:248-257 | the whole run keeps one load and one history per road; its content is stated in `Ledger.RunBooks` |
| Processes.KnapsackPick | TrafficSimulation.py:106-107 | under Policy A a process always gets a road: a first least-ratio road |
| Processes.BalancedPick | TrafficSimulation.py:108-109 | under Policy B a process gets no road exactly when no road has room, and otherwise gets exactly the least road with room by (ratio, position) |
| Processes.StartRaises | TrafficSimulation.py:105-114 | a process raises at its entry lookup exactly under Policy B when no road has room; it then changes only the failure record; a process that does not raise is held and leaves the failure record alone |
| Processes.StartDoubles | TrafficSimulation.py:107-113 | with distinct names the chosen road gains twice the weight before the hold and no other road changes |
| Processes.ReleaseFloors | TrafficSimulation.py:115-116 | after the hold the load is `max(0, load - weight)`, never negative; the road's history gains exactly one entry, the new ratio; no other road changes |
| Ledger.WeightAppend | TrafficSimulation.py:113-115 | the weight and count of processes on a road add up over concatenation |
| Ledger.AddKeeps | TrafficSimulation.py:101-114 | adding the next vehicle keeps the books: loads, histories, numbering, generation order, and no failure under Policy A |
| Ledger.ReleaseKeeps | TrafficSimulation.py:114-116 | under the books a release is exact: it never reaches the floor, the road loses exactly the weight and its history gains the new ratio |
| Ledger.ReleaseNKeeps | TrafficSimulation.py:114-116 | resuming several processes keeps the books |
| Ledger.ArriveKeeps | MOD_3_Q1.py:123-126 | the hour's generator keeps the books |
| Ledger.TickKeeps | TrafficSimulation.py:118-127 | a tick keeps the books |
| Ledger.HourKeeps | TrafficSimulation.py:257-267 | a due tick keeps the books and hands the rest of the run to the next hour |
| Ledger.RunFromKeeps | TrafficSimulation.py:257-267 | the rest of a run keeps the books |
| Ledger.LastHourDrains | TrafficSimulation.py:257 | the final tick generates nothing and resumes every held process |
| Ledger.RunFromDrains | TrafficSimulation.py:257 | a run that reaches its final tick without raising ends with nothing held |
| Ledger.RunBooks | TrafficSimulation.py:101-127 | a whole run, from fresh lists: every vehicle `i` has id `i`; each road's load is its start plus the weight of each finished vehicle on it plus twice that of each held one; its history gains one entry per finished vehicle; Policy A never raises; a run without a failure finishes every vehicle in generation order, holds none, and leaves each road's start load plus the weight of the vehicles finished there |
| Simulator.TrafficSimulator.constructor | TrafficSimulation.py:92-99 | a new simulator over distinct roads of non-zero capacity is valid, holds its parameters, no vehicles and no pending processes |
| Simulator.TrafficSimulator.FindRoad | TrafficSimulation.py:112 | the lookup loop returns the first road with the name |
| Simulator.TrafficSimulator.CallPolicy | TrafficSimulation.py:106-109 | the call of the selected policy on `[vehicle]` leaves the roads and returns the dictionary of the engine's dispatch |
| Simulator.TrafficSimulator.HoldProcess | TrafficSimulation.py:112-114 | the road lookup and the second `+= weight`; the process is then held against that road |
| Simulator.TrafficSimulator.StartProcess | TrafficSimulation.py:105-114 | the process up to its hold leaves the state `Start` computes |
| Simulator.TrafficSimulator.ResumeFirst | TrafficSimulation.py:115-116 | the process after its hold leaves the state `Release` computes |
| Simulator.TrafficSimulator.AddVehicle | TrafficSimulation.py:101-103 | `add_vehicle` leaves the state `Add` computes |
| Simulator.TrafficSimulator.GenerateOne | MOD_3_Q1.py:123-126 | one generated vehicle leaves the state of one more step of `ArriveUpTo` |
| Simulator.TrafficSimulator.GenerateHour | MOD_3_Q1.py:119-126 | one hour of the generator's loop leaves the state `ArriveUpTo` computes |
| Simulator.TrafficSimulator.AdvanceHour | TrafficSimulation.py:118-127 | one simulated hour leaves the state `Tick` computes |
| Simulator.TrafficSimulator.Step | TrafficSimulation.py:257-267 | one step of the stepping loop hands the rest of the run to the next hour |
| Simulator.TrafficSimulator.Run | TrafficSimulation.py:248-257 | the whole run leaves the state `Engine.Run` computes and reports the first failure |
| Lights.TrafficLight.constructor | MOD_3_Q1.py:46-49 | a new light is green with its timer at 0 |
| Lights.TrafficLight.Update | MOD_3_Q1.py:51-62 | `update` performs one step of the light's machine and keeps the timer within the colour's limit |
| Lights.Next | MOD_3_Q1.py:51-62 | the colour changes exactly when the timer passes its limit; it then goes green to yellow to red to green with the timer reset to 0, and otherwise the timer counts up by one; a timer within the limit (60 for green and red, 10 for yellow) stays within it |
| Lights.Iterate | MOD_3_Q1.py:51-62 | any number of updates keeps the timer within the limit |
| Lights.IterateSplit | MOD_3_Q1.py:51-62 | `a + b` updates are `a` updates followed by `b` |
| Lights.IterateHold | MOD_3_Q1.py:51-62 | below its limit a colour holds and the timer counts up |
| Lights.IterateSwitch | MOD_3_Q1.py:51-62 | one update past the limit switches to the next colour |
| Lights.Cycle | MOD_3_Q1.py:46-62 | from green at 0 the light is green for 61 updates, yellow for 11 and red for 61, and first returns to green at 0 after 133 |
| Arrivals.TruncHalf | MOD_3_Q1.py:121 | `int(rate / 2)` truncates toward zero |
| Arrivals.PeakWholeHours | MOD_3_Q1.py:120 | an hour is a peak hour exactly when it lies between the window's start rounded up and its end rounded down |
| Arrivals.PeakHours | MOD_3_Q1.py:119-120 | the number of peak hours is at most the window |
| Arrivals.ExpectedSplit | MOD_3_Q1.py:119-122 | the expected arrivals are the full rate per peak hour plus the halved rate per other hour |
| Arrivals.PeakHoursInWindow | MOD_3_Q1.py:120 | an integer peak window `[lo, hi]` inside the run has `hi - lo + 1` peak hours |
| Arrivals.PeakHoursBefore | MOD_3_Q1.py:120 | a window that started `k` hours before the run's end has `k` peak hours |
| Arrivals.PeakHoursNone | MOD_3_Q1.py:120 | no hour before the window's start is a peak hour |
| Arrivals.PeakHoursSame | MOD_3_Q1.py:120 | two windows that hold the same whole hours count the same |
| Arrivals.DefaultScenario | TrafficSimulation.py:92 | the default parameters (24 hours, peak (8, 10), rate 20) give 3 peak hours and 270 expected vehicles |
| Arrivals.MiddayPeak | MOD_3_Q1.py:337 | the midday window (11.5, 13.5) makes exactly hours 12 and 13 peak hours |
| Arrivals.PresetPeaks | MOD_3_Q1.py:337-338 | the morning, midday and evening windows hold 3, 2 and 4 peak hours of a 24-hour run |
| Report.MaxOf | MOD_3_Q1.py:206 | `max(history)` is an entry of the history and at least every entry |
| Report.MinOf | MOD_3_Q1.py:207 | `min(history)` is an entry of the history and at most every entry |
| Report.PeakCongestion | MOD_3_Q1.py:206 | the peak congestion is 0 for an empty history, and otherwise the largest entry in percent |
| Report.MinCongestion | MOD_3_Q1.py:207 | the minimum congestion is 0 for an empty history, and otherwise the smallest entry in percent |
| Report.HighCongestionPeriods | MOD_3_Q1.py:208 | the high-congestion count is at most the history's length |
| Report.HighCongestionCount | MOD_3_Q1.py:208 | the count is the number of positions whose entry is over 0.7 |
| Report.HighCongestionAppend | MOD_3_Q1.py:208 | the count over a concatenation is the sum of the counts |
| Report.HighCongestionExtremes | MOD_3_Q1.py:208 | the count is 0 exactly when no entry is over 0.7, and the length exactly when all are |
| Report.TotalVehicles | MOD_3_Q1.py:209 | the estimate `sum(ratio * capacity)` is never negative for non-negative ratios and capacity |
| Report.TotalVehiclesOfLoads | MOD_3_Q1.py:209 | when every entry is `load / capacity`, `sum(ratio * capacity)` is exactly the sum of the recorded loads |
| Scenarios.KnapsackHourZero | TrafficSimulation.py:105-114 | Policy A, two empty roads of capacity 10: in hour 0 a weight-3 vehicle takes the first road, which carries 6 while it is held |
| Scenarios.KnapsackHourOne | TrafficSimulation.py:115-116 | in the final tick the vehicle's process resumes, leaving load 3 and history [0.3] |
| Scenarios.KnapsackScenario | TrafficSimulation.py:248-257 | that one-hour run ends with loads [3, 0], histories [[0.3], []], nothing held and no failure |
| Scenarios.BalanceScenario | TrafficSimulation.py:105-116 | Policy B, one road of capacity 3, two weight-2 vehicles in hour 0: the first fits, but the double add leaves load 4, over capacity; the second finds no room and its process raises; no history is recorded |
| Scenarios.BalanceTurnedAway | TrafficSimulation.py:79-113 | Policy B, one road of capacity 4, two weight-2 vehicles: the double add brings the road to 4, so the second vehicle's process raises, though after a single reservation (load 2) the policy would give it the road |

## Left out

- Floating point: every ratio is an exact `real`, so no rounding is modelled.
- The average congestion `np.mean(history)` at line 205 is left out: it is floating-point arithmetic through a foreign library.
- `Vehicle.move`, the vehicle's random `x`, its speed, and the display's `congestion_level` (lines 37-42, 268) are left out: they only feed the animation.
- The drawing, event polling, charts, PDF output and dialog boxes are left out. This covers `TrafficLight.draw`, `draw_road_layout`, `draw_vehicles_on_roads`, `run_matplotlib_visualization`, the body of `generate_pdf_report` and `create_gui`. They are I/O.
- The early stop of the display loop when the window is closed is left out. It depends on user input, and a run then simply ends after fewer ticks.
- The random source: `np.random.poisson` and `np.random.choice` are replaced by the `sample` parameter. It gives each hour's draws for the hour's rate. A negative rate, on which `poisson` would raise, is not rejected.
- The event scheduler's internals are left out. The model keeps only the order of events described under "The scheduler as ticks".
- A road's `coordinates` are not modelled: nothing in the core reads them.
- A capacity of 0 makes the source divide by zero. The model requires every capacity to be non-zero.
- An empty road list under Policy A makes `min` raise. The model requires a road in that case.
- The `int(...)` of the report's vehicle total, at line 219, is left out. The model gives the exact sum.
- After a process raises, the source's run dies and writes no report. The model instead stops after the tick and records the vehicle's id.
- Ledger.RunBooks: stated for road lists with distinct names. With two roads of the same name, the second `+= weight` goes to the first of them, which `Engine.IndexOf` models but the books do not track.
- Engine.RunFrom, Engine.RunOn, Engine.RunHour, Engine.Run: their own contracts state only that the run keeps one load and one history per road. The run's content is stated by `Ledger.RunBooks` and `Ledger.RunFromDrains`.
- Engine.Start, Engine.Tick: their own contracts state only the shape of the result. The outcome of a start is stated by `Processes.StartRaises` and `Processes.StartDoubles`. What a tick does to the books is stated by `Ledger.TickKeeps`.
- Greedy.GreedyUpTo, Greedy.GreedyPick: their own contracts state only the shape. What each pass does and which road it picks is stated by `Greedy.GreedyChoice` and the lemmas after it. Stating the pick inside the function makes every proof about the batch unfold it repeatedly.
- Balance.BalanceUpTo, Balance.BalancePickAt: likewise, stated by `Balance.BalanceChoice` and the lemmas after it.
- Assignments.Assign: its own contract states only one load per road. Its effect is stated by `Assignments.AssignEffect`.
- A negative `time_window` makes the source's `range` empty, so no hour runs. The model's window is a `nat`, so this case is not modelled.
