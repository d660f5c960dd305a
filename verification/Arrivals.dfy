/**
 Arrival times of a storm (srsTwin/integration/storm/patterns.py). The uniform draws and the
 values of an intensity on the time grid are given.
 */
module Arrivals {
  import opened Collections

  // ---- arrival times ----

  predicate AtMost(a: real, b: real) {
    a <= b
  }

  function Clip(x: real, lo: real, hi: real): real {
    if x < lo then lo else if x > hi then hi else x
  }

  /** `arrival_times`: whatever the pattern draws, sorted. */
  function ArrivalTimes(drawn: seq<real>): seq<real> {
    StableSort(AtMost, drawn)
  }

  /** What `burst` makes of one uniform number. */
  function BurstTime(u: real, duration: real, startS: real, windowS: real): real {
    var window := MaxReal(windowS, 0.000001);
    var latest := MaxReal(duration - window, 0.0);
    var start := if latest < startS then latest else startS;
    Clip(start + u * window, 0.0, duration)
  }

  function BurstDraws(uniform: seq<real>, duration: real, startS: real, windowS: real): (r: seq<real>)
    ensures |r| == |uniform|
  {
    seq(|uniform|, i requires 0 <= i < |uniform| => BurstTime(uniform[i], duration, startS, windowS))
  }

  /**
   The window of a burst is as long as asked for, but at least a microsecond, and starts where
   asked for, or as late as still lets it end with the run, or at once. A draw's time is as
   far into the window as the draw says, cut to the run.
   */
  lemma BurstFillsItsWindow(u: real, duration: real, startS: real, windowS: real, start: real, window: real)
    requires if windowS >= 0.000001 then window == windowS else window == 0.000001
    requires if duration >= window then start == startS <= duration - window || start == duration - window < startS
             else start == startS <= 0.0 || start == 0.0 < startS
    ensures var t := start + u * window;
      duration >= 0.0 ==>
        BurstTime(u, duration, startS, windowS) == if t < 0.0 then 0.0 else if t > duration then duration else t
  {
  }

  lemma TimeOrder()
    ensures TotalPreorder(AtMost)
  {
  }

  /** Sorting times loses none and keeps their bounds. */
  lemma SortedTimes(drawn: seq<real>, lo: real, hi: real)
    requires forall i | 0 <= i < |drawn| :: lo <= drawn[i] <= hi
    ensures var times := ArrivalTimes(drawn);
      && |times| == |drawn| && Ordered(AtMost, times) && multiset(times) == multiset(drawn)
      && forall i | 0 <= i < |times| :: lo <= times[i] <= hi
  {
    TimeOrder();
    StableSortLaws(AtMost, drawn);
    SortedMembers(AtMost, drawn);
    forall i | 0 <= i < |drawn| ensures lo <= ArrivalTimes(drawn)[i] <= hi {
      assert ArrivalTimes(drawn)[i] in ArrivalTimes(drawn);
    }
  }

  /** A flash crowd is complete, in order and inside the run. */
  lemma BurstIsInRange(uniform: seq<real>, duration: real, startS: real, windowS: real)
    requires duration >= 0.0
    ensures var times := ArrivalTimes(BurstDraws(uniform, duration, startS, windowS));
      && |times| == |uniform| && Ordered(AtMost, times)
      && forall i | 0 <= i < |times| :: 0.0 <= times[i] <= duration
  {
    var drawn := BurstDraws(uniform, duration, startS, windowS);
    forall i | 0 <= i < |drawn| ensures 0.0 <= drawn[i] <= duration {
      assert drawn[i] == BurstTime(uniform[i], duration, startS, windowS);
    }
    SortedTimes(drawn, 0.0, duration);
  }

  // ---- inverting an intensity ----

  predicate Rising(s: seq<real>) {
    forall i, j | 0 <= i <= j < |s| :: s[i] <= s[j]
  }

  /** The first k values added up. */
  function Sum(s: seq<real>, k: nat): real
    requires k <= |s|
  {
    if k == 0 then 0.0 else Sum(s, k - 1) + s[k - 1]
  }

  /** `np.clip(lam, 0, None)`, or all ones if nothing is left. */
  function Weights(lam: seq<real>): (w: seq<real>)
    ensures |w| == |lam|
  {
    var clipped := seq(|lam|, i requires 0 <= i < |lam| => MaxReal(lam[i], 0.0));
    if Sum(clipped, |clipped|) <= 0.0 then seq(|lam|, i => 1.0) else clipped
  }

  lemma {:induction false} SumRises(s: seq<real>, i: nat, j: nat)
    requires i <= j <= |s| && forall k | 0 <= k < |s| :: s[k] >= 0.0
    ensures 0.0 <= Sum(s, i) <= Sum(s, j)
    decreases j
  {
    if i < j {
      SumRises(s, i, j - 1);
    } else if i > 0 {
      SumRises(s, i - 1, i - 1);
    }
  }

  lemma {:induction false} SumOfOnes(s: seq<real>, k: nat)
    requires k <= |s| && forall i | 0 <= i < |s| :: s[i] == 1.0
    ensures Sum(s, k) == k as real
  {
    if k > 0 {
      SumOfOnes(s, k - 1);
    }
  }

  lemma WeightsWeigh(lam: seq<real>)
    requires lam != []
    ensures Sum(Weights(lam), |lam|) > 0.0 && forall i | 0 <= i < |lam| :: Weights(lam)[i] >= 0.0
  {
    var clipped := seq(|lam|, i requires 0 <= i < |lam| => MaxReal(lam[i], 0.0));
    if Sum(clipped, |clipped|) <= 0.0 {
      SumOfOnes(Weights(lam), |lam|);
    }
  }

  function Share(part: real, whole: real): real
    requires whole > 0.0
  {
    part / whole
  }

  lemma ShareRises(a: real, b: real, whole: real)
    requires whole > 0.0 && 0.0 <= a <= b
    ensures 0.0 <= Share(a, whole) <= Share(b, whole)
  {
    assert Share(b, whole) - Share(a, whole) == (b - a) / whole;
  }

  lemma WholeShare(whole: real)
    requires whole > 0.0
    ensures Share(whole, whole) == 1.0
  {
  }

  /** `cumsum(lam) / cumsum(lam)[-1]` */
  function Cdf(lam: seq<real>): (cdf: seq<real>)
    requires lam != []
    ensures |cdf| == |lam|
  {
    WeightsWeigh(lam);
    var w := Weights(lam);
    seq(|lam|, k requires 0 <= k < |lam| => Share(Sum(w, k + 1), Sum(w, |w|)))
  }

  lemma CdfRises(lam: seq<real>)
    requires lam != []
    ensures Rising(Cdf(lam)) && Cdf(lam)[|lam| - 1] == 1.0 && Cdf(lam)[0] >= 0.0
  {
    var w := Weights(lam);
    WeightsWeigh(lam);
    WholeShare(Sum(w, |w|));
    forall i, j | 0 <= i <= j < |lam| ensures 0.0 <= Cdf(lam)[i] <= Cdf(lam)[j] {
      SumRises(w, i + 1, j + 1);
      ShareRises(Sum(w, i + 1), Sum(w, j + 1), Sum(w, |w|));
    }
  }

  /** How many of the ascending values are at most u. */
  function Reached(cdf: seq<real>, u: real): (k: nat)
    ensures k <= |cdf|
    ensures forall i | 0 <= i < k :: cdf[i] <= u
    ensures k < |cdf| ==> u < cdf[k]
  {
    if cdf == [] || u < cdf[0] then 0 else 1 + Reached(cdf[1..], u)
  }

  /** The point on the line from (x0, y0) to (x1, y1) above x. */
  function Between(x: real, x0: real, x1: real, y0: real, y1: real): real
    requires x0 < x1
  {
    y0 + Share(x - x0, x1 - x0) * (y1 - y0)
  }

  lemma BetweenBounds(x: real, x0: real, x1: real, y0: real, y1: real)
    requires x0 <= x < x1 && y0 <= y1
    ensures y0 <= Between(x, x0, x1, y0, y1) <= y1
  {
    var s := Share(x - x0, x1 - x0);
    ShareRises(0.0, x - x0, x1 - x0);
    ShareRises(x - x0, x1 - x0, x1 - x0);
    assert 0.0 <= s <= 1.0;
    Within(s, y1 - y0);
  }

  /** The line meets its two ends and rises evenly between them. */
  lemma BetweenIsStraight(x: real, x0: real, x1: real, y0: real, y1: real)
    requires x0 < x1
    ensures Between(x0, x0, x1, y0, y1) == y0 && Between(x1, x0, x1, y0, y1) == y1
    ensures (Between(x, x0, x1, y0, y1) - y0) * (x1 - x0) == (x - x0) * (y1 - y0)
  {
    var s := Share(x - x0, x1 - x0);
    assert s * (x1 - x0) == x - x0;
    Reassociate(s, y1 - y0, x1 - x0);
  }

  lemma Reassociate(a: real, b: real, c: real)
    ensures (a * b) * c == (a * c) * b
  {
  }

  lemma Within(s: real, d: real)
    requires 0.0 <= s <= 1.0 && d >= 0.0
    ensures 0.0 <= s * d <= d
  {
    assert (1.0 - s) * d >= 0.0;
  }

  /** `np.interp(u, cdf, t)` */
  function Interp(u: real, cdf: seq<real>, t: seq<real>): real
    requires |cdf| == |t| > 0
  {
    var k := Reached(cdf, u);
    if k == 0 then t[0]
    else if k == |cdf| then t[|t| - 1]
    else Between(u, cdf[k - 1], cdf[k], t[k - 1], t[k])
  }

  /**
   Interpolation inverts the distribution at every grid point: a draw below what the
   intensity puts up to that point gives a time up to it, any other a time from it on.
   */
  lemma InterpInverts(u: real, cdf: seq<real>, t: seq<real>, i: nat)
    requires |cdf| == |t| && i < |t| && Rising(cdf) && Rising(t)
    ensures u < cdf[i] ==> Interp(u, cdf, t) <= t[i]
    ensures cdf[i] <= u ==> t[i] <= Interp(u, cdf, t)
  {
    var k := Reached(cdf, u);
    if 0 < k < |cdf| {
      BetweenBounds(u, cdf[k - 1], cdf[k], t[k - 1], t[k]);
    }
  }

  lemma InterpBounds(u: real, cdf: seq<real>, t: seq<real>)
    requires |cdf| == |t| > 0 && Rising(cdf) && Rising(t)
    ensures t[0] <= Interp(u, cdf, t) <= t[|t| - 1]
  {
    var k := Reached(cdf, u);
    if 0 < k < |cdf| {
      BetweenBounds(u, cdf[k - 1], cdf[k], t[k - 1], t[k]);
    }
  }

  const GRID := 4096

  /** `np.linspace(0, duration, GRID)` */
  function TimeGrid(duration: real): (t: seq<real>)
    ensures |t| == GRID
  {
    seq(GRID, i requires 0 <= i < GRID => Share(i as real, 4095.0) * duration)
  }

  lemma GridRises(duration: real)
    requires duration >= 0.0
    ensures Rising(TimeGrid(duration)) && TimeGrid(duration)[0] == 0.0 && TimeGrid(duration)[GRID - 1] == duration
  {
    forall i, j | 0 <= i <= j < GRID ensures TimeGrid(duration)[i] <= TimeGrid(duration)[j] {
      ShareRises(i as real, j as real, 4095.0);
      Scales(Share(i as real, 4095.0), Share(j as real, 4095.0), duration);
    }
  }

  lemma Scales(a: real, b: real, d: real)
    requires a <= b && d >= 0.0
    ensures a * d <= b * d
  {
    assert (b - a) * d >= 0.0;
  }

  /** `_invert_intensity` before its sort: one time for every draw. */
  function Inverted(lam: seq<real>, uniform: seq<real>, duration: real): (r: seq<real>)
    requires |lam| == GRID
    ensures |r| == |uniform|
  {
    seq(|uniform|, i requires 0 <= i < |uniform| => Interp(uniform[i], Cdf(lam), TimeGrid(duration)))
  }

  /**
   The non-uniform patterns: for any intensity, even one that is nowhere positive, exactly as
   many times as draws, in order, inside the run; and up to every grid point come exactly the
   draws below the share of the intensity there, but for draws that hit the share itself.
   */
  lemma InvertedIsExact(lam: seq<real>, uniform: seq<real>, duration: real)
    requires |lam| == GRID && duration >= 0.0
    ensures var drawn := Inverted(lam, uniform, duration);
      var times := ArrivalTimes(drawn);
      && |times| == |uniform| && Ordered(AtMost, times) && multiset(times) == multiset(drawn)
      && (forall i | 0 <= i < |times| :: 0.0 <= times[i] <= duration)
      && (forall i, k | 0 <= i < |uniform| && 0 <= k < GRID ::
            (uniform[i] < Cdf(lam)[k] ==> drawn[i] <= TimeGrid(duration)[k])
            && (Cdf(lam)[k] <= uniform[i] ==> TimeGrid(duration)[k] <= drawn[i]))
  {
    var drawn := Inverted(lam, uniform, duration);
    CdfRises(lam);
    GridRises(duration);
    forall i | 0 <= i < |uniform| ensures 0.0 <= drawn[i] <= duration {
      InterpBounds(uniform[i], Cdf(lam), TimeGrid(duration));
    }
    SortedTimes(drawn, 0.0, duration);
    forall i, k | 0 <= i < |uniform| && 0 <= k < GRID
      ensures uniform[i] < Cdf(lam)[k] ==> drawn[i] <= TimeGrid(duration)[k]
      ensures Cdf(lam)[k] <= uniform[i] ==> TimeGrid(duration)[k] <= drawn[i]
    {
      InterpInverts(uniform[i], Cdf(lam), TimeGrid(duration), k);
    }
  }
}
