/**
 * What both policies build while they walk the batch: the road loads and the
 * result dictionary from vehicle id to road name, a later vehicle with the
 * same id overwriting an earlier one.
 */
module Assignments {
  import opened Options
  import opened Vehicles

  /** The loads of the roads, by list position, and the assignments made so far. */
  datatype Placement = Placement(loads: seq<int>, assignments: map<nat, string>)

  /**
   * One pass of a policy's loop: given road `c`, the vehicle's id is mapped
   * to that road's name and the road gains the vehicle's weight; given none,
   * nothing changes.
   */
  function Assign(p: Placement, names: seq<string>, v: Vehicle, c: Option<nat>): (q: Placement)
    requires |p.loads| == |names| && (c.Some? ==> c.value < |names|)
    ensures |q.loads| == |p.loads|
  {
    match c
    case None => p
    case Some(k) => Placement(p.loads[k := p.loads[k] + v.weight], p.assignments[v.id := names[k]])
  }

  /**
   * Given no road, nothing changes. Given road `c`, only that road's load
   * changes, by exactly the vehicle's weight; the vehicle's id is added to
   * the dictionary, mapped to the road's name; every other entry is kept.
   */
  lemma AssignEffect(p: Placement, names: seq<string>, v: Vehicle, c: Option<nat>)
    requires |p.loads| == |names| && (c.Some? ==> c.value < |names|)
    ensures c.None? ==> Assign(p, names, v, c) == p
    ensures c.Some? ==>
      var q, k := Assign(p, names, v, c), c.value;
      && q.loads[k] == p.loads[k] + v.weight
      && (forall j :: 0 <= j < |p.loads| && j != k ==> q.loads[j] == p.loads[j])
      && q.assignments.Keys == p.assignments.Keys + {v.id} && q.assignments[v.id] == names[k]
      && (forall id :: id in p.assignments && id != v.id ==> q.assignments[id] == p.assignments[id])
  {
  }
}
