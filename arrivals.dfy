/**
 * The arrival schedule of `generate_random_traffic`: which hours are peak
 * hours and the Poisson rate drawn from in each hour. The draws themselves are
 * inputs of the simulator; here the rates are their means.
 */
module Arrivals {

  /** Python's `int(x / 2)`: halving, then truncation toward zero. */
  function TruncHalf(rate: int): (r: int)
    ensures rate >= 0 ==> 0 <= r && 2 * r <= rate < 2 * r + 2
    ensures rate < 0 ==> r <= 0 && 2 * r - 2 < rate <= 2 * r
  {
    if rate >= 0 then rate / 2 else -((-rate) / 2)
  }

  /** Hour `hour` lies in the peak window, both ends included. The bounds may be fractional. */
  predicate IsPeak(hour: int, peakStart: real, peakEnd: real) {
    peakStart <= hour as real <= peakEnd
  }

  /** The peak hours are the whole hours from the window's start rounded up to its end rounded down. */
  lemma PeakWholeHours(hour: int, peakStart: real, peakEnd: real)
    ensures IsPeak(hour, peakStart, peakEnd) <==> -((-peakStart).Floor) <= hour <= peakEnd.Floor
  {
  }

  /** The Poisson rate of hour `hour`: the full rate in a peak hour, half of it (truncated) otherwise. */
  function HourRate(hour: int, peakStart: real, peakEnd: real, rate: int): int {
    if IsPeak(hour, peakStart, peakEnd) then rate else TruncHalf(rate)
  }

  /** The number of peak hours among hours `0 .. window - 1`. */
  function PeakHours(window: nat, peakStart: real, peakEnd: real): (n: nat)
    ensures n <= window
  {
    if window == 0 then 0
    else PeakHours(window - 1, peakStart, peakEnd) + (if IsPeak(window - 1, peakStart, peakEnd) then 1 else 0)
  }

  /** The expected number of vehicles generated over hours `0 .. window - 1`: the sum of the hourly rates. */
  function ExpectedArrivals(window: nat, peakStart: real, peakEnd: real, rate: int): int {
    if window == 0 then 0
    else ExpectedArrivals(window - 1, peakStart, peakEnd, rate) + HourRate(window - 1, peakStart, peakEnd, rate)
  }

  /** One more hour, peak or not, regroups the sum of full and halved rates. */
  lemma Regroup(a: int, b: int, p: nat, n: nat)
    requires p <= n
    ensures a * p + b * (n - p) + a == a * (p + 1) + b * (n + 1 - (p + 1))
    ensures a * p + b * (n - p) + b == a * p + b * (n + 1 - p)
  {
    assert a * (p + 1) == a * p + a;
    assert b * (n + 1 - p) == b * (n - p) + b;
  }

  /** Every peak hour contributes the full rate, every other hour the halved one. */
  lemma {:induction false} ExpectedSplit(window: nat, peakStart: real, peakEnd: real, rate: int)
    ensures ExpectedArrivals(window, peakStart, peakEnd, rate)
         == rate * PeakHours(window, peakStart, peakEnd) + TruncHalf(rate) * (window - PeakHours(window, peakStart, peakEnd))
  {
    if window > 0 {
      ExpectedSplit(window - 1, peakStart, peakEnd, rate);
      var p, h := PeakHours(window - 1, peakStart, peakEnd), TruncHalf(rate);
      var e := ExpectedArrivals(window - 1, peakStart, peakEnd, rate);
      Regroup(rate, h, p, window - 1);
      if IsPeak(window - 1, peakStart, peakEnd) {
        assert ExpectedArrivals(window, peakStart, peakEnd, rate) == e + rate;
        assert PeakHours(window, peakStart, peakEnd) == p + 1;
      } else {
        assert ExpectedArrivals(window, peakStart, peakEnd, rate) == e + h;
        assert PeakHours(window, peakStart, peakEnd) == p;
      }
    }
  }

  /** An integer window `[lo, hi]` inside the horizon holds `hi - lo + 1` peak hours. */
  lemma {:induction false} PeakHoursInWindow(window: nat, lo: int, hi: int)
    requires 0 <= lo <= hi < window
    ensures PeakHours(window, lo as real, hi as real) == hi - lo + 1
  {
    if window - 1 > hi {
      PeakHoursInWindow(window - 1, lo, hi);
    } else {
      PeakHoursBefore(window - 1, lo, hi);
    }
  }

  /** All of `[lo, hi]` before `window`: `window - lo` peak hours. */
  lemma {:induction false} PeakHoursBefore(window: nat, lo: int, hi: int)
    requires 0 <= lo <= window <= hi + 1
    ensures PeakHours(window, lo as real, hi as real) == window - lo
  {
    if window > lo {
      PeakHoursBefore(window - 1, lo, hi);
    } else if window > 0 {
      PeakHoursNone(window, lo as real, hi as real);
    }
  }

  /** No hour before the window's start is a peak hour. */
  lemma {:induction false} PeakHoursNone(window: nat, peakStart: real, peakEnd: real)
    requires window as real <= peakStart
    ensures PeakHours(window, peakStart, peakEnd) == 0
  {
    if window > 0 {
      PeakHoursNone(window - 1, peakStart, peakEnd);
    }
  }

  /** Two peak windows that hold the same whole hours give the same count. */
  lemma {:induction false} PeakHoursSame(window: nat, a: real, b: real, a': real, b': real)
    requires forall hour: int :: IsPeak(hour, a, b) <==> IsPeak(hour, a', b')
    ensures PeakHours(window, a, b) == PeakHours(window, a', b')
  {
    if window > 0 {
      PeakHoursSame(window - 1, a, b, a', b');
      assert IsPeak(window - 1, a, b) <==> IsPeak(window - 1, a', b');
    }
  }

  /** The default run: a peak window `(8, 10)` in 24 hours at rate 20 means 3 * 20 + 21 * 10 = 270 vehicles. */
  lemma DefaultScenario()
    ensures PeakHours(24, 8.0, 10.0) == 3
    ensures ExpectedArrivals(24, 8.0, 10.0, 20) == 270
  {
    PeakHoursInWindow(24, 8, 10);
    ExpectedSplit(24, 8.0, 10.0, 20);
  }

  /** The midday choice `(11.5, 13.5)` makes hours 12 and 13 the peak hours, and no others. */
  lemma MiddayPeak(hour: int)
    ensures IsPeak(hour, 11.5, 13.5) <==> hour == 12 || hour == 13
  {
    if 11.5 <= hour as real {
      assert hour >= 12;
    }
    if hour as real <= 13.5 {
      assert hour <= 13;
    }
  }

  /**
   * The three peak periods offered for a 24-hour window: morning `(6, 8)`
   * spans three peak hours, midday `(11.5, 13.5)` two and evening `(16, 19)`
   * four.
   */
  lemma PresetPeaks()
    ensures PeakHours(24, 6.0, 8.0) == 3
    ensures PeakHours(24, 11.5, 13.5) == 2
    ensures PeakHours(24, 16.0, 19.0) == 4
  {
    PeakHoursInWindow(24, 6, 8);
    PeakHoursInWindow(24, 16, 19);
    PeakHoursInWindow(24, 12, 13);
    forall hour: int ensures IsPeak(hour, 11.5, 13.5) <==> IsPeak(hour, 12.0, 13.0) {
      MiddayPeak(hour);
    }
    PeakHoursSame(24, 11.5, 13.5, 12.0, 13.0);
  }
}
