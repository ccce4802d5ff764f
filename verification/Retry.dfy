// The retry schedule: exponential backoff with a ceiling and proportional jitter,
// over real numbers. The random draw is a parameter.

module Retry {
  import opened Types
  import opened Config

  datatype RetryError = AttemptsMadeBelowOne

  const MIN_DELAY := 0.5

  function Pow(f: real, n: nat): real {
    if n == 0 then 1.0 else f * Pow(f, n - 1)
  }

  /** The un-jittered, uncapped delay after `n` attempts. */
  function Raw(s: Settings, n: nat): real
    requires n >= 1
  {
    s.retryBase * Pow(s.retryFactor, n - 1)
  }

  function BaseDelay(s: Settings, attemptsMade: int): (r: Result<real, RetryError>)
    ensures r.Err? <==> attemptsMade < 1
  {
    if attemptsMade < 1 then Err(AttemptsMadeBelowOne)
    else Ok(MinR(Raw(s, attemptsMade), s.retryCap))
  }

  /** BaseDelay on the arguments it accepts. */
  function Delay(s: Settings, n: nat): real
    requires n >= 1
  {
    BaseDelay(s, n).value
  }

  /** A draw the random generator may produce around delay `n`. */
  ghost predicate Draw(s: Settings, n: nat, draw: real)
    requires n >= 1
  {
    -(Delay(s, n) * s.retryJitter) <= draw <= Delay(s, n) * s.retryJitter
  }

  function NextDelay(s: Settings, attemptsMade: int, draw: real): (r: Result<real, RetryError>)
    ensures r.Err? <==> attemptsMade < 1
    ensures r.Ok? ==> r.value >= 0.5
  {
    match BaseDelay(s, attemptsMade)
    case Err(e) => Err(e)
    case Ok(delay) =>
      var jittered := if s.retryJitter != 0.0 then delay + draw else delay;
      Ok(MaxR(MIN_DELAY, jittered))
  }

  predicate IsExhausted(s: Settings, attemptsMade: int) {
    attemptsMade >= s.retryMaxAttempts
  }

  function Sum(xs: seq<real>): real {
    if xs == [] then 0.0 else Sum(xs[..|xs| - 1]) + xs[|xs| - 1]
  }

  /** The un-jittered delays after attempts 1..n. */
  function Schedule(s: Settings, n: nat): seq<real> {
    seq(n, i requires 0 <= i => Delay(s, i + 1))
  }

  /** Un-jittered time from the first attempt to the last. */
  function TotalRetryWindow(s: Settings): real {
    if s.retryMaxAttempts <= 1 then 0.0 else Sum(Schedule(s, s.retryMaxAttempts - 1))
  }

  // --- growth and ceiling -----------------------------------------------------

  lemma {:induction false} PowGrows(f: real, n: nat)
    requires f >= 1.0
    ensures 1.0 <= Pow(f, n) <= Pow(f, n + 1)
  {
    if n > 0 {
      PowGrows(f, n - 1);
      var p := Pow(f, n);
      assert f * p - p == (f - 1.0) * p;
    }
  }

  lemma BernoulliStep(g: real, p: real, m: real)
    requires g >= 0.0 && p >= 1.0 && p >= 1.0 + m * g
    ensures (1.0 + g) * p >= 1.0 + (m + 1.0) * g
  {
    MulMono(g, 1.0, p);
    assert (1.0 + g) * p == p + g * p;
    assert (m + 1.0) * g == m * g + g;
  }

  /** Bernoulli's inequality, the reason exponential growth outruns any ceiling. */
  lemma {:induction false} Bernoulli(f: real, n: nat)
    requires f >= 1.0
    ensures Pow(f, n) >= 1.0 + n as real * (f - 1.0)
  {
    if n > 0 {
      Bernoulli(f, n - 1);
      PowGrows(f, n - 1);
      BernoulliStep(f - 1.0, Pow(f, n - 1), (n - 1) as real);
    }
  }

  lemma MulMono(a: real, x: real, y: real)
    requires a >= 0.0 && x <= y
    ensures a * x <= a * y
  {
    assert a * y - a * x == a * (y - x);
  }

  lemma MulMonoLeft(x: real, y: real, a: real)
    requires a >= 0.0 && x <= y
    ensures x * a <= y * a
  {
    MulMono(a, x, y);
  }

  lemma {:induction false} RawGrows(s: Settings, m: nat, n: nat)
    requires InRange(s) && 1 <= m <= n
    ensures 0.0 < Raw(s, m) <= Raw(s, n)
    decreases n
  {
    if m < n {
      RawGrows(s, m, n - 1);
      PowGrows(s.retryFactor, n - 2);
      MulMono(s.retryBase, Pow(s.retryFactor, n - 2), Pow(s.retryFactor, n - 1));
    } else {
      PowGrows(s.retryFactor, n - 1);
      MulMono(s.retryBase, 1.0, Pow(s.retryFactor, n - 1));
    }
  }

  /** Delays are positive, never shrink and never exceed the ceiling. */
  lemma DelaysNeverDecrease(s: Settings, m: nat, n: nat)
    requires InRange(s) && 1 <= m <= n
    ensures 0.0 < Delay(s, m) <= Delay(s, n) <= s.retryCap
  {
    RawGrows(s, m, n);
  }

  /** An index, computable without any power, from which the ceiling is in force. */
  function CapIndex(s: Settings): int
    requires InRange(s) && s.retryFactor > 1.0
  {
    if s.retryCap <= s.retryBase then 1
    else StepsBelow(s.retryCap / s.retryBase, s.retryFactor) + 1
  }

  /** A number of factors f > 1 whose product is sure to reach x > 1. */
  function StepsBelow(x: real, f: real): int
    requires f > 1.0
  {
    ((x - 1.0) / (f - 1.0)).Floor + 1
  }

  lemma StrictlyBelow(a: real, x: real, y: real)
    requires a > 0.0 && x < y
    ensures a * x < a * y
  {
    assert a * y - a * x == a * (y - x);
  }

  lemma BelowFloor(x: real, step: real, k: int)
    requires step > 0.0 && x >= 0.0 && k == (x / step).Floor + 1
    ensures k >= 1 && k as real * step >= x
  {
    var q := x / step;
    assert q < k as real;
    assert q * step == x;
    MulMono(step, q, k as real);
    assert k >= 1 by {
      if k < 1 {
        MulMono(step, k as real, 0.0);
        StrictlyBelow(step, q, k as real);
        assert false;
      }
    }
  }

  lemma PowReaches(f: real, x: real, m: nat)
    requires f > 1.0 && x >= 1.0 && m >= StepsBelow(x, f)
    ensures Pow(f, m) >= x
  {
    BelowFloor(x - 1.0, f - 1.0, StepsBelow(x, f));
    MulMonoLeft(StepsBelow(x, f) as real, m as real, f - 1.0);
    Bernoulli(f, m);
  }

  lemma PowReachesCap(s: Settings, n: nat)
    requires InRange(s) && s.retryFactor > 1.0
    requires n >= CapIndex(s) && n >= 1
    ensures Pow(s.retryFactor, n - 1) >= 1.0
    ensures s.retryCap > s.retryBase ==> Pow(s.retryFactor, n - 1) >= s.retryCap / s.retryBase
  {
    PowGrows(s.retryFactor, n - 1);
    if s.retryCap > s.retryBase {
      RatioAboveOne(s.retryCap, s.retryBase);
      PowReaches(s.retryFactor, s.retryCap / s.retryBase, n - 1);
    }
  }

  /** With a factor above one the schedule reaches its ceiling by CapIndex and stays there. */
  lemma CapIsReached(s: Settings, n: nat)
    requires InRange(s) && s.retryFactor > 1.0
    requires n >= CapIndex(s) && n >= 1
    ensures Delay(s, n) == s.retryCap
  {
    PowReachesCap(s, n);
    ProductReaches(s.retryBase, s.retryCap, Pow(s.retryFactor, n - 1));
  }

  lemma ProductReaches(b: real, cap: real, p: real)
    requires b > 0.0 && p >= 1.0 && (cap > b ==> p >= cap / b)
    ensures b * p >= cap
  {
    if cap > b {
      RatioAboveOne(cap, b);
      MulMono(b, cap / b, p);
    } else {
      MulMono(b, 1.0, p);
    }
  }

  lemma RatioAboveOne(a: real, b: real)
    requires a > b > 0.0
    ensures a / b > 1.0 && b * (a / b) == a
  {
  }

  // --- closed form of the whole window ------------------------------------------

  /** How many of the first n delays are still below or at the ceiling. */
  function Uncapped(s: Settings, n: nat): nat {
    if n == 0 then 0
    else if Raw(s, n) <= s.retryCap then n
    else Uncapped(s, n - 1)
  }

  lemma {:induction false} UncappedIsThreshold(s: Settings, n: nat, i: nat)
    requires InRange(s) && 1 <= i <= n
    ensures Uncapped(s, n) <= n
    ensures Raw(s, i) <= s.retryCap <==> i <= Uncapped(s, n)
  {
    if Raw(s, n) <= s.retryCap {
      RawGrows(s, i, n);
    } else if i < n {
      UncappedIsThreshold(s, n - 1, i);
    } else if n > 1 {
      UncappedIsThreshold(s, n - 1, n - 1);
    }
  }

  /** b * f^k, built one factor at a time. */
  function Geometric(b: real, f: real, k: nat): real {
    if k == 0 then b else f * Geometric(b, f, k - 1)
  }

  lemma {:induction false} GeometricIsRaw(b: real, f: real, k: nat)
    ensures Geometric(b, f, k) == b * Pow(f, k)
  {
    if k > 0 {
      GeometricIsRaw(b, f, k - 1);
      var p := Pow(f, k - 1);
      assert f * (b * p) == b * (f * p);
    }
  }

  lemma Telescope(f: real, w: real, g: real)
    ensures (f - 1.0) * (w + g) == (f - 1.0) * w + f * g - g
  {
  }

  /** The first k delays, while none of them has met the ceiling. */
  lemma {:induction false} GeometricPart(s: Settings, k: nat)
    requires InRange(s) && (k >= 1 ==> Raw(s, k) <= s.retryCap)
    ensures (s.retryFactor - 1.0) * Sum(Schedule(s, k))
         == Geometric(s.retryBase, s.retryFactor, k) - s.retryBase
  {
    if k > 0 {
      var rest := Sum(Schedule(s, k - 1));
      GeometricDelay(s, k);
      GeometricPart(s, k - 1);
      Telescope(s.retryFactor, rest, Geometric(s.retryBase, s.retryFactor, k - 1));
    }
  }

  lemma GeometricDelay(s: Settings, k: nat)
    requires InRange(s) && k >= 1 && Raw(s, k) <= s.retryCap
    ensures Sum(Schedule(s, k)) == Sum(Schedule(s, k - 1)) + Geometric(s.retryBase, s.retryFactor, k - 1)
    ensures k > 1 ==> Raw(s, k - 1) <= s.retryCap
  {
    if k > 1 { RawGrows(s, k - 1, k); }
    GeometricIsRaw(s.retryBase, s.retryFactor, k - 1);
    ScheduleGrows(s, k);
  }

  lemma ScheduleGrows(s: Settings, k: nat)
    requires k >= 1
    ensures Sum(Schedule(s, k)) == Sum(Schedule(s, k - 1)) + Delay(s, k)
  {
    assert Schedule(s, k)[..k - 1] == Schedule(s, k - 1);
  }

  lemma OneMore(m: nat, c: real)
    ensures (m + 1) as real * c == m as real * c + c
  {
  }

  lemma {:induction false} FlatTail(xs: seq<real>, k: nat, c: real)
    requires k <= |xs| && forall i :: k <= i < |xs| ==> xs[i] == c
    ensures Sum(xs) == Sum(xs[..k]) + (|xs| - k) as real * c
    decreases |xs|
  {
    var n := |xs| - 1;
    if k <= n {
      FlatTail(xs[..n], k, c);
      assert xs[..n][..k] == xs[..k];
      OneMore(n - k, c);
    } else {
      assert xs[..k] == xs;
    }
  }

  lemma LinearPart(s: Settings, n: nat)
    requires InRange(s)
    ensures var k := Uncapped(s, n);
            k <= n && Sum(Schedule(s, n)) == Sum(Schedule(s, k)) + (n - k) as real * s.retryCap
  {
    var k := Uncapped(s, n);
    ThresholdHolds(s, n);
    var xs := Schedule(s, n);
    forall i | k <= i < n ensures xs[i] == s.retryCap {
      assert Raw(s, i + 1) > s.retryCap;
    }
    assert xs[..k] == Schedule(s, k);
    FlatTail(xs, k, s.retryCap);
  }

  lemma GeometricHead(s: Settings, k: nat)
    requires InRange(s) && s.retryFactor > 1.0 && (k >= 1 ==> Raw(s, k) <= s.retryCap)
    ensures Sum(Schedule(s, k)) == (Geometric(s.retryBase, s.retryFactor, k) - s.retryBase) / (s.retryFactor - 1.0)
  {
    GeometricPart(s, k);
    Cancel(s.retryFactor - 1.0, Sum(Schedule(s, k)), Geometric(s.retryBase, s.retryFactor, k) - s.retryBase);
  }

  /** With a factor above one the window is a geometric sum up to the ceiling plus a
      linear tail, for every number of attempts. */
  lemma WindowClosedForm(s: Settings, n: nat)
    requires InRange(s) && s.retryFactor > 1.0
    ensures var k := Uncapped(s, n);
            && k <= n
            && Sum(Schedule(s, n)) == (Geometric(s.retryBase, s.retryFactor, k) - s.retryBase) / (s.retryFactor - 1.0)
                                      + (n - k) as real * s.retryCap
  {
    ThresholdHolds(s, n);
    GeometricHead(s, Uncapped(s, n));
    LinearPart(s, n);
  }

  lemma ThresholdHolds(s: Settings, n: nat)
    requires InRange(s)
    ensures var k := Uncapped(s, n);
            && k <= n
            && (k >= 1 ==> Raw(s, k) <= s.retryCap)
            && forall i :: k < i <= n ==> Raw(s, i) > s.retryCap
  {
    var k := Uncapped(s, n);
    if n >= 1 { UncappedIsThreshold(s, n, n); }
    if k >= 1 { UncappedIsThreshold(s, n, k); }
    forall i | k < i <= n ensures Raw(s, i) > s.retryCap {
      UncappedIsThreshold(s, n, i);
    }
  }

  lemma Cancel(g: real, x: real, y: real)
    requires g > 0.0 && g * x == y
    ensures x == y / g
  {
    assert (y / g) * g == y;
    assert g * (x - y / g) == 0.0;
  }

  lemma {:induction false} FlatPow(n: nat)
    ensures Pow(1.0, n) == 1.0
  {
    if n > 0 { FlatPow(n - 1); }
  }

  /** With factor one every delay is the same. */
  lemma {:induction false} FlatWindow(s: Settings, n: nat)
    requires s.retryFactor == 1.0
    ensures Sum(Schedule(s, n)) == n as real * MinR(s.retryBase, s.retryCap)
  {
    if n > 0 {
      FlatWindow(s, n - 1);
      FlatPow(n - 1);
      ScheduleGrows(s, n);
      OneMore(n - 1, MinR(s.retryBase, s.retryCap));
    }
  }

  /** The shipped schedule keeps trying for 87915 seconds, more than a day. */
  lemma DefaultsSurviveADay()
    ensures TotalRetryWindow(DEFAULTS) == 87915.0
    ensures TotalRetryWindow(DEFAULTS) >= 24.0 * 3600.0
  {
    var s := DEFAULTS;
    TenDoublings();
    assert Raw(s, 10) == 2560.0 && Raw(s, 11) == 5120.0;
    WindowClosedForm(s, 33);
    UncappedIsThreshold(s, 33, 10);
    UncappedIsThreshold(s, 33, 11);
    assert Uncapped(s, 33) == 10;
  }

  lemma TenDoublings()
    ensures Pow(2.0, 9) == 512.0 && Pow(2.0, 10) == 1024.0
  {
    assert Pow(2.0, 3) == 8.0;
    assert Pow(2.0, 6) == 64.0;
    assert Pow(2.0, 9) == 512.0;
  }

  // --- jitter -------------------------------------------------------------------

  /** A jittered delay stays in the configured band, apart from the 0.5 s floor. */
  lemma JitterBand(s: Settings, n: nat, draw: real)
    requires InRange(s) && n >= 1 && Draw(s, n, draw)
    ensures NextDelay(s, n, draw).Ok?
    ensures NextDelay(s, n, draw).value >= (1.0 - s.retryJitter) * Delay(s, n)
    ensures NextDelay(s, n, draw).value <= MaxR(0.5, (1.0 + s.retryJitter) * Delay(s, n))
    ensures NextDelay(s, n, draw).value <= MaxR(0.5, s.retryCap * (1.0 + s.retryJitter))
  {
    DelaysNeverDecrease(s, n, n);
    var d := Delay(s, n);
    assert (1.0 - s.retryJitter) * d == d - d * s.retryJitter;
    assert (1.0 + s.retryJitter) * d == d + d * s.retryJitter;
    MulMono(1.0 + s.retryJitter, d, s.retryCap);
  }

  /** Every pause of the band above the floor is drawn by exactly one draw. */
  lemma BandIsReached(s: Settings, n: nat, pause: real)
    requires InRange(s) && n >= 1 && s.retryJitter > 0.0 && pause > MIN_DELAY
    requires (1.0 - s.retryJitter) * Delay(s, n) <= pause <= (1.0 + s.retryJitter) * Delay(s, n)
    ensures exists draw :: Draw(s, n, draw) && NextDelay(s, n, draw) == Ok(pause)
    ensures forall x, y :: NextDelay(s, n, x) == Ok(pause) && NextDelay(s, n, y) == Ok(pause) ==> x == y
  {
    var d, draw := Delay(s, n), pause - Delay(s, n);
    assert (1.0 - s.retryJitter) * d == d - d * s.retryJitter;
    assert (1.0 + s.retryJitter) * d == d + d * s.retryJitter;
    assert Draw(s, n, draw) && NextDelay(s, n, draw) == Ok(pause);
  }

  lemma AddScaled(a: real, x: real, y: real, x': real, y': real)
    requires x >= a * y && x' >= a * y'
    ensures x + x' >= a * (y + y')
  {
    assert a * (y + y') == a * y + a * y';
  }

  lemma {:induction false} SumScaled(a: real, xs: seq<real>, ys: seq<real>)
    requires |xs| == |ys| && forall i :: 0 <= i < |xs| ==> xs[i] >= a * ys[i]
    ensures Sum(xs) >= a * Sum(ys)
  {
    if xs != [] {
      var n := |xs| - 1;
      SumScaled(a, xs[..n], ys[..n]);
      AddScaled(a, Sum(xs[..n]), Sum(ys[..n]), xs[n], ys[n]);
    }
  }

  /** A schedule as actually drawn: one draw per delay. */
  function JitteredSchedule(s: Settings, draws: seq<real>): seq<real> {
    seq(|draws|, i requires 0 <= i < |draws| => NextDelay(s, i + 1, draws[i]).value)
  }

  lemma JitterFloor(s: Settings, draws: seq<real>, keep: real, xs: seq<real>, ys: seq<real>)
    requires InRange(s) && keep == 1.0 - s.retryJitter
    requires forall i :: 0 <= i < |draws| ==> Draw(s, i + 1, draws[i])
    requires xs == JitteredSchedule(s, draws) && ys == Schedule(s, |draws|)
    ensures |xs| == |ys| && forall i :: 0 <= i < |xs| ==> xs[i] >= keep * ys[i]
  {
    forall i | 0 <= i < |draws| ensures xs[i] >= keep * ys[i] {
      JitterBand(s, i + 1, draws[i]);
    }
  }

  /** Whatever the generator draws, the schedule spans at least (1 - jitter) of the window. */
  lemma JitterCannotCollapseTheWindow(s: Settings, draws: seq<real>, keep: real)
    requires InRange(s) && keep == 1.0 - s.retryJitter
    requires forall i :: 0 <= i < |draws| ==> Draw(s, i + 1, draws[i])
    ensures Sum(JitteredSchedule(s, draws)) >= keep * Sum(Schedule(s, |draws|))
  {
    var xs, ys := JitteredSchedule(s, draws), Schedule(s, |draws|);
    JitterFloor(s, draws, keep, xs, ys);
    SumScaled(keep, xs, ys);
  }
}
