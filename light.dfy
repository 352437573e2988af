/**
 * The traffic light: a three-state machine driven by a frame counter. Each
 * update advances the timer; green and red last while the timer stays at most
 * 60, yellow while it stays at most 10, and every change of colour resets
 * the timer to 0.
 */
module Lights {

  datatype Signal = Green | Yellow | Red

  /** The light's state and timer, as a value. */
  datatype Phase = Phase(state: Signal, timer: int)

  /** How long a colour may be held: the largest timer value it keeps. */
  function Limit(s: Signal): int {
    if s == Yellow then 10 else 60
  }

  /** The colour that follows `s`. */
  function Following(s: Signal): Signal {
    match s
    case Green => Yellow
    case Yellow => Red
    case Red => Green
  }

  /** The timer is within the colour's limit. */
  predicate Bounded(p: Phase) {
    0 <= p.timer <= Limit(p.state)
  }

  /**
   * `TrafficLight.update`, as a function of the current phase: the colour
   * changes exactly when the timer passes the colour's limit; it then moves
   * one step round green, yellow, red and the timer restarts at 0. Otherwise
   * the colour stays and the timer counts up by one. A timer within its limit
   * stays within it.
   */
  function Next(p: Phase): (q: Phase)
    ensures q.state != p.state <==> p.timer + 1 > Limit(p.state)
    ensures q.state != p.state ==> q.state == Following(p.state) && q.timer == 0
    ensures q.state == p.state ==> q.timer == p.timer + 1
    ensures Bounded(p) ==> Bounded(q)
  {
    var t := p.timer + 1;
    if p.state == Green && t > 60 then Phase(Yellow, 0)
    else if p.state == Yellow && t > 10 then Phase(Red, 0)
    else if p.state == Red && t > 60 then Phase(Green, 0)
    else Phase(p.state, t)
  }

  /** `n` updates in a row; a timer within its limit stays within it. */
  function Iterate(p: Phase, n: nat): (r: Phase)
    ensures Bounded(p) ==> Bounded(r)
    decreases n
  {
    if n == 0 then p else Iterate(Next(p), n - 1)
  }

  /** `a + b` updates are `a` updates followed by `b`. */
  lemma {:induction false} IterateSplit(p: Phase, a: nat, b: nat)
    ensures Iterate(p, a + b) == Iterate(Iterate(p, a), b)
    decreases a
  {
    if a > 0 {
      IterateSplit(Next(p), a - 1, b);
    }
  }

  /** Below its limit a colour holds, the timer counting up. */
  lemma {:induction false} IterateHold(s: Signal, t: int, n: nat)
    requires t + n <= Limit(s)
    ensures Iterate(Phase(s, t), n) == Phase(s, t + n)
    decreases n
  {
    if n > 0 {
      assert Next(Phase(s, t)) == Phase(s, t + 1);
      IterateHold(s, t + 1, n - 1);
    }
  }

  /** One update past the limit switches to the following colour. */
  lemma {:induction false} IterateSwitch(s: Signal)
    ensures Iterate(Phase(s, 0), Limit(s) + 1) == Phase(Following(s), 0)
  {
    IterateHold(s, 0, Limit(s));
    IterateSplit(Phase(s, 0), Limit(s), 1);
  }

  /** The phase `n` updates after a fresh light, for `n` within one cycle. */
  function CyclePhase(n: nat): Phase
    requires n < 133
  {
    if n <= 60 then Phase(Green, n)
    else if n <= 71 then Phase(Yellow, n - 61)
    else Phase(Red, n - 72)
  }

  /**
   * From green with timer 0 the light is green for 61 updates, yellow for 11 and
   * red for 61: after `n < 133` updates it is at `CyclePhase(n)`, and after 133
   * it is back at green with timer 0, which it reaches at no earlier update.
   */
  lemma {:induction false} Cycle(n: nat)
    requires n <= 133
    ensures n < 133 ==> Iterate(Phase(Green, 0), n) == CyclePhase(n)
    ensures Iterate(Phase(Green, 0), n) == Phase(Green, 0) <==> n == 0 || n == 133
  {
    var g := Phase(Green, 0);
    IterateSwitch(Green);
    IterateSwitch(Yellow);
    IterateSwitch(Red);
    IterateSplit(g, 61, 11);
    IterateSplit(g, 72, 61);
    if n <= 60 {
      IterateHold(Green, 0, n);
    } else if n <= 71 {
      IterateSplit(g, 61, n - 61);
      IterateHold(Yellow, 0, n - 61);
    } else if n < 133 {
      IterateSplit(g, 72, n - 72);
      IterateHold(Red, 0, n - 72);
    }
  }

  class TrafficLight {
    const position: (int, int)
    var state: Signal
    var timer: int

    /** A new light is green with its timer at 0. */
    constructor (position: (int, int))
      ensures this.position == position && state == Green && timer == 0
    {
      this.position := position;
      state := Green;
      timer := 0;
    }

    /** `update`: one frame of the light's timer. */
    method Update()
      modifies this
      ensures Phase(state, timer) == Next(Phase(old(state), old(timer)))
      ensures Bounded(Phase(old(state), old(timer))) ==> Bounded(Phase(state, timer))
    {
      timer := timer + 1;
      if state == Green && timer > 60 {
        state := Yellow;
        timer := 0;
      } else if state == Yellow && timer > 10 {
        state := Red;
        timer := 0;
      } else if state == Red && timer > 60 {
        state := Green;
        timer := 0;
      }
    }
  }
}
