/** Vehicles: arriving units of load with a weight and a priority. */
module Vehicles {

  datatype Vehicle = Vehicle(id: nat, weight: nat, priority: int)

  /** The lists the generator draws weight and priority from. */
  const WeightChoices: seq<nat> := [1, 2, 3]
  const PriorityChoices: seq<int> := [1, 2, 3, 4, 5]

  /** One draw of the random source: the positions picked in the two lists. */
  datatype Draw = Draw(weightPick: nat, priorityPick: nat)

  predicate ValidDraw(d: Draw) {
    d.weightPick < |WeightChoices| && d.priorityPick < |PriorityChoices|
  }

  /** A draw that picks inside both lists. */
  type Pick = d: Draw | ValidDraw(d) witness Draw(0, 0)

  /** The vehicle built from one draw, with the given id. */
  function NewVehicle(id: nat, d: Draw): (v: Vehicle)
    requires ValidDraw(d)
    ensures v.id == id && v.weight in {1, 2, 3} && 1 <= v.priority <= 5
  {
    Vehicle(id, WeightChoices[d.weightPick], PriorityChoices[d.priorityPick])
  }

  /** Vehicles drawn in one batch, numbered from `start` in draw order. */
  function NewVehicles(start: nat, ds: seq<Draw>): (vs: seq<Vehicle>)
    requires forall i :: 0 <= i < |ds| ==> ValidDraw(ds[i])
    ensures |vs| == |ds|
    ensures forall i :: 0 <= i < |ds| ==> vs[i] == NewVehicle(start + i, ds[i])
  {
    if ds == [] then [] else NewVehicles(start, ds[..|ds| - 1]) + [NewVehicle(start + |ds| - 1, ds[|ds| - 1])]
  }

  /** Numbering two batches one after the other is numbering their concatenation. */
  lemma {:induction false} NewVehiclesAppend(start: nat, ds: seq<Draw>, es: seq<Draw>)
    requires forall i :: 0 <= i < |ds| ==> ValidDraw(ds[i])
    requires forall i :: 0 <= i < |es| ==> ValidDraw(es[i])
    ensures NewVehicles(start, ds) + NewVehicles(start + |ds|, es) == NewVehicles(start, ds + es)
  {
    var l, r := NewVehicles(start, ds) + NewVehicles(start + |ds|, es), NewVehicles(start, ds + es);
    assert |l| == |r|;
    forall i | 0 <= i < |l| ensures l[i] == r[i] {
      if i < |ds| { assert (ds + es)[i] == ds[i]; } else { assert (ds + es)[i] == es[i - |ds|]; }
    }
  }

  /** The weights of a batch, in order. */
  function Weights(vehicles: seq<Vehicle>): (ws: seq<nat>)
    ensures |ws| == |vehicles| && forall i :: 0 <= i < |vehicles| ==> ws[i] == vehicles[i].weight
  {
    seq(|vehicles|, i requires 0 <= i < |vehicles| => vehicles[i].weight)
  }

  /** The screen lane: even ids drive at y = 300, odd ids at y = 400. */
  function Lane(v: Vehicle): int {
    if v.id % 2 == 0 then 300 else 400
  }

  /** Consecutively numbered vehicles alternate lanes. */
  lemma {:induction false} LanesAlternate(v: Vehicle, w: Vehicle)
    requires w.id == v.id + 1
    ensures Lane(v) != Lane(w) && {Lane(v), Lane(w)} == {300, 400}
  {
  }

  datatype Colour = Blue | RedColour

  /** The drawing colour: blue (0, 128, 255) above priority 2, red (255, 0, 0) otherwise. */
  function ColourOf(v: Vehicle): Colour {
    if v.priority > 2 then Blue else RedColour
  }

  /** A generated vehicle is blue exactly when its priority was drawn from 3, 4 or 5. */
  lemma {:induction false} GeneratedColour(id: nat, d: Draw)
    requires ValidDraw(d)
    ensures ColourOf(NewVehicle(id, d)) == Blue <==> d.priorityPick >= 2
  {
  }
}
