/** Sensor smoothing over the reals (crates/plugins/autopilot/src/filter.rs). */
module AutopilotFilter {
  import opened Basics

  /** `new` panics unless the smoothing factor lies in (0, 1]. */
  predicate ValidAlpha(alpha: real) {
    0.0 < alpha <= 1.0
  }

  function LowPassStep(alpha: real, value: Option<real>, input: real): real {
    match value
    case Some(prev) => prev + alpha * (input - prev)
    case None => input
  }

  class LowPassFilter {
    var value: Option<real>
    const alpha: real

    constructor (alpha: real)
      requires ValidAlpha(alpha)
      ensures value == None && this.alpha == alpha
    {
      value := None;
      this.alpha := alpha;
    }

    method Update(input: real) returns (out: real)
      modifies this
      ensures out == LowPassStep(alpha, old(value), input) && value == Some(out)
    {
      match value {
        case Some(prev) => out := prev + alpha * (input - prev);
        case None => out := input;
      }
      value := Some(out);
    }

    method Reset()
      modifies this
      ensures value == None
    {
      value := None;
    }
  }

  /** The filter's value after feeding `inputs` since the last reset. */
  function LowPassRun(alpha: real, inputs: seq<real>): Option<real> {
    if inputs == [] then None
    else Some(LowPassStep(alpha, LowPassRun(alpha, inputs[..|inputs| - 1]), inputs[|inputs| - 1]))
  }

  ghost predicate AllBetween(inputs: seq<real>, lo: real, hi: real) {
    forall i :: 0 <= i < |inputs| ==> lo <= inputs[i] <= hi
  }

  lemma NonNegativeProduct(x: real, y: real)
    requires 0.0 <= x && 0.0 <= y
    ensures 0.0 <= x * y
  {}

  lemma MixBetween(alpha: real, a: real, b: real, lo: real, hi: real)
    requires 0.0 <= alpha <= 1.0 && lo <= a <= hi && lo <= b <= hi
    ensures lo <= a + alpha * (b - a) <= hi
  {
    var d := Abs(b - a);
    NonNegativeProduct(alpha, d);
    NonNegativeProduct(1.0 - alpha, d);
    assert (1.0 - alpha) * d == d - alpha * d;
    if b < a {
      assert alpha * (b - a) == -(alpha * d);
    }
  }

  /** Main result: after any run the output lies between the least and the greatest input. */
  lemma {:induction false} OutputWithinInputs(alpha: real, inputs: seq<real>, lo: real, hi: real)
    requires ValidAlpha(alpha) && inputs != [] && AllBetween(inputs, lo, hi)
    ensures lo <= LowPassRun(alpha, inputs).value <= hi
  {
    if |inputs| > 1 {
      var before := inputs[..|inputs| - 1];
      OutputWithinInputs(alpha, before, lo, hi);
      MixBetween(alpha, LowPassRun(alpha, before).value, inputs[|inputs| - 1], lo, hi);
    }
  }

  function Pow(x: real, n: nat): real {
    if n == 0 then 1.0 else x * Pow(x, n - 1)
  }

  /** The filter after `n` further samples of the same input. */
  function Constantly(alpha: real, start: real, input: real, n: nat): real {
    if n == 0 then start else LowPassStep(alpha, Some(Constantly(alpha, start, input, n - 1)), input)
  }

  /** A constant input leaves exactly the fraction (1 - alpha)^n of the initial error. */
  lemma {:induction false} ErrorDecaysGeometrically(alpha: real, start: real, input: real, n: nat)
    ensures Constantly(alpha, start, input, n) - input == Pow(1.0 - alpha, n) * (start - input)
  {
    if n > 0 {
      ErrorDecaysGeometrically(alpha, start, input, n - 1);
      var e := Constantly(alpha, start, input, n - 1) - input;
      assert Constantly(alpha, start, input, n) - input == (1.0 - alpha) * e;
      assert (1.0 - alpha) * (Pow(1.0 - alpha, n - 1) * (start - input))
          == (1.0 - alpha) * Pow(1.0 - alpha, n - 1) * (start - input);
    }
  }

  // ----- circular filter -----

  /** The sine and cosine of an angle. */
  type Direction = (real, real)

  class CircularFilter {
    const sinFilter: LowPassFilter
    const cosFilter: LowPassFilter

    ghost predicate Valid()
      reads this
    {
      sinFilter != cosFilter && sinFilter.alpha == cosFilter.alpha
    }

    constructor (alpha: real)
      requires ValidAlpha(alpha)
      ensures Valid() && fresh(sinFilter) && fresh(cosFilter) && sinFilter.alpha == alpha
      ensures sinFilter.value == None && cosFilter.value == None
    {
      sinFilter := new LowPassFilter(alpha);
      cosFilter := new LowPassFilter(alpha);
    }

    /** Filters an angle given by its sine and cosine; `atan2` rebuilds the angle. */
    method Update(d: Direction, atan2: (real, real) -> real) returns (angle: real)
      requires Valid()
      modifies sinFilter, cosFilter
      ensures sinFilter.value == Some(LowPassStep(sinFilter.alpha, old(sinFilter.value), d.0))
      ensures cosFilter.value == Some(LowPassStep(cosFilter.alpha, old(cosFilter.value), d.1))
      ensures angle == atan2(sinFilter.value.value, cosFilter.value.value)
    {
      var s := sinFilter.Update(d.0);
      var c := cosFilter.Update(d.1);
      angle := atan2(s, c);
    }

    method Reset()
      requires Valid()
      modifies sinFilter, cosFilter
      ensures sinFilter.value == None && cosFilter.value == None
    {
      sinFilter.Reset();
      cosFilter.Reset();
    }
  }

  predicate InDisc(s: real, c: real) {
    s * s + c * c <= 1.0
  }

  predicate OnCircle(d: Direction) {
    d.0 * d.0 + d.1 * d.1 == 1.0
  }

  /** Squaring is convex. */
  lemma MixOfSquares(alpha: real, a: real, b: real, m: real)
    requires 0.0 <= alpha <= 1.0 && m == a + alpha * (b - a)
    ensures m * m <= (1.0 - alpha) * (a * a) + alpha * (b * b)
  {
    var d := b - a;
    SquareNonNegative(d);
    NonNegativeProduct(alpha, 1.0 - alpha);
    NonNegativeProduct(alpha * (1.0 - alpha), d * d);
    assert (1.0 - alpha) * (a * a) + alpha * (b * b) - (a + alpha * d) * (a + alpha * d) == alpha * (1.0 - alpha) * (d * d);
    assert m * m == (a + alpha * d) * (a + alpha * d);
  }

  lemma SquareNonNegative(x: real)
    ensures 0.0 <= x * x
  {}

  lemma MixInDisc(alpha: real, s: real, c: real, d: Direction, u: real, v: real)
    requires 0.0 <= alpha <= 1.0 && InDisc(s, c) && OnCircle(d)
    requires u == s + alpha * (d.0 - s) && v == c + alpha * (d.1 - c)
    ensures InDisc(u, v)
  {
    var (x, y) := d;
    MixOfSquares(alpha, s, x, u);
    MixOfSquares(alpha, c, y, v);
    WeightedMean(alpha, s * s, c * c, x * x, y * y);
  }

  lemma WeightedMean(alpha: real, ss: real, cc: real, xx: real, yy: real)
    requires 0.0 <= alpha <= 1.0 && ss + cc <= 1.0 && xx + yy == 1.0
    ensures ((1.0 - alpha) * ss + alpha * xx) + ((1.0 - alpha) * cc + alpha * yy) <= 1.0
  {
    NonNegativeProduct(1.0 - alpha, 1.0 - (ss + cc));
    assert (1.0 - alpha) * (1.0 - (ss + cc)) == (1.0 - alpha) - (1.0 - alpha) * ss - (1.0 - alpha) * cc;
    assert alpha * xx + alpha * yy == alpha * (xx + yy);
  }

  function CircularStep(alpha: real, state: Option<Direction>, d: Direction): Direction {
    if state.None? then (LowPassStep(alpha, None, d.0), LowPassStep(alpha, None, d.1))
    else (LowPassStep(alpha, Some(state.value.0), d.0), LowPassStep(alpha, Some(state.value.1), d.1))
  }

  /** The filtered sine and cosine after feeding `ds` since the last reset. */
  function CircularRun(alpha: real, ds: seq<Direction>): Option<Direction> {
    if ds == [] then None else Some(CircularStep(alpha, CircularRun(alpha, ds[..|ds| - 1]), ds[|ds| - 1]))
  }

  predicate StateInDisc(state: Option<Direction>) {
    state.Some? ==> InDisc(state.value.0, state.value.1)
  }

  lemma StepInDisc(alpha: real, state: Option<Direction>, d: Direction)
    requires 0.0 <= alpha <= 1.0 && StateInDisc(state) && OnCircle(d)
    ensures StateInDisc(Some(CircularStep(alpha, state, d)))
  {
    var (u, v) := CircularStep(alpha, state, d);
    if state.Some? {
      MixInDisc(alpha, state.value.0, state.value.1, d, u, v);
    }
  }

  /** Main result: the filtered sine and cosine never leave the unit disc. */
  lemma {:induction false} StaysInUnitDisc(alpha: real, ds: seq<Direction>)
    requires ValidAlpha(alpha) && forall d :: d in ds ==> OnCircle(d)
    ensures StateInDisc(CircularRun(alpha, ds))
  {
    if ds != [] {
      StaysInUnitDisc(alpha, ds[..|ds| - 1]);
      StepInDisc(alpha, CircularRun(alpha, ds[..|ds| - 1]), ds[|ds| - 1]);
    }
  }

  // ----- rate detector -----

  function RawRate(prev: Option<real>, value: real, dt: real): real {
    if prev.Some? && dt > 0.0 then (value - prev.value) / dt else 0.0
  }

  class RateDetector {
    var prevValue: Option<real>
    const outputFilter: LowPassFilter

    constructor (smoothingAlpha: real)
      requires ValidAlpha(smoothingAlpha)
      ensures prevValue == None && fresh(outputFilter) && outputFilter.alpha == smoothingAlpha && outputFilter.value == None
    {
      prevValue := None;
      outputFilter := new LowPassFilter(smoothingAlpha);
    }

    method Update(value: real, dt: real) returns (rate: real)
      modifies this, outputFilter
      ensures prevValue == Some(value)
      ensures rate == LowPassStep(outputFilter.alpha, old(outputFilter.value), RawRate(old(prevValue), value, dt))
      ensures outputFilter.value == Some(rate)
    {
      var raw := RawRate(prevValue, value, dt);
      prevValue := Some(value);
      rate := outputFilter.Update(raw);
    }

    method Reset()
      modifies this, outputFilter
      ensures prevValue == None && outputFilter.value == None
    {
      prevValue := None;
      outputFilter.Reset();
    }
  }

  /** Samples of a signal with their time steps. */
  type Sample = (real, real)

  function RawRates(samples: seq<Sample>): seq<real> {
    seq(|samples|, i requires 0 <= i < |samples| =>
      RawRate(if i == 0 then None else Some(samples[i - 1].0), samples[i].0, samples[i].1))
  }

  ghost predicate NeverFaster(samples: seq<Sample>, limit: real) {
    forall i :: 0 < i < |samples| ==> SlowStep(samples[i - 1].0, samples[i].0, samples[i].1, limit)
  }

  predicate SlowStep(prev: real, value: real, dt: real, limit: real) {
    dt > 0.0 ==> Abs(value - prev) <= limit * dt
  }

  lemma RawRateBound(prev: Option<real>, value: real, dt: real, limit: real)
    requires 0.0 <= limit && (prev.Some? ==> SlowStep(prev.value, value, dt, limit))
    ensures -limit <= RawRate(prev, value, dt) <= limit
  {
    if prev.Some? && dt > 0.0 {
      QuotientAtMost(value - prev.value, dt, limit);
      QuotientAtMost(-(value - prev.value), dt, limit);
      assert (-(value - prev.value)) / dt == -((value - prev.value) / dt);
    }
  }

  lemma QuotientAtMost(x: real, dt: real, limit: real)
    requires dt > 0.0 && x <= limit * dt
    ensures x / dt <= limit
  {
    assert x / dt * dt == x;
  }

  lemma RawRatesBound(samples: seq<Sample>, limit: real)
    requires 0.0 <= limit && NeverFaster(samples, limit)
    ensures AllBetween(RawRates(samples), -limit, limit)
  {
    forall i | 0 <= i < |samples| ensures -limit <= RawRates(samples)[i] <= limit {
      RawRateAtBound(samples, limit, i);
    }
  }

  lemma RawRateAtBound(samples: seq<Sample>, limit: real, i: nat)
    requires 0.0 <= limit && NeverFaster(samples, limit) && i < |samples|
    ensures -limit <= RawRates(samples)[i] <= limit
  {
    if i == 0 {
      RawRateBound(None, samples[0].0, samples[0].1, limit);
    } else {
      RawRateBound(Some(samples[i - 1].0), samples[i].0, samples[i].1, limit);
    }
  }

  /** A signal that never changes faster than `limit` is never detected as faster. */
  lemma DetectedRateIsBounded(alpha: real, samples: seq<Sample>, limit: real)
    requires ValidAlpha(alpha) && samples != [] && 0.0 <= limit && NeverFaster(samples, limit)
    ensures Abs(LowPassRun(alpha, RawRates(samples)).value) <= limit
  {
    RawRatesBound(samples, limit);
    OutputWithinInputs(alpha, RawRates(samples), -limit, limit);
  }
}
