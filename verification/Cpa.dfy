/** Closest point of approach of two vessels, in exact real arithmetic
    (crates/plugins/ais-status/src/cpa.rs). Distances are kept squared, since the
    square root of the source is not an operation on `real`. */
module Cpa {
  import opened Basics
  import opened Angles

  const EARTH_RADIUS_M := 6_371_000.0
  const SAME_VELOCITY := 0.000001

  /** Position in decimal degrees and velocity east and north in m/s. */
  datatype Motion = Motion(lat: real, lon: real, vx: real, vy: real)

  datatype Tcpa = Finite(t: real) | Infinite

  datatype CpaResult = CpaResult(cpaSq: real, tcpa: Tcpa)

  /** Relative position (m) and velocity (m/s), target minus own vessel. */
  datatype Relative = Relative(px: real, py: real, vx: real, vy: real)

  function ToRadians(degrees: real): real {
    degrees * (PI / 180.0)
  }

  /** Equirectangular projection around the middle latitude; `cos` is the cosine. */
  function RelativeMotion(own: Motion, target: Motion, cos: real -> real): Relative {
    Relative(ToRadians(target.lon - own.lon) * cos(ToRadians((own.lat + target.lat) / 2.0)) * EARTH_RADIUS_M,
             ToRadians(target.lat - own.lat) * EARTH_RADIUS_M,
             target.vx - own.vx, target.vy - own.vy)
  }

  function SpeedSq(r: Relative): real {
    r.vx * r.vx + r.vy * r.vy
  }

  /** Squared distance after `t` seconds on constant courses. */
  function DistanceSq(r: Relative, t: real): real {
    var (x, y) := (r.px + r.vx * t, r.py + r.vy * t);
    x * x + y * y
  }

  function ComputeCpa(own: Motion, target: Motion, cos: real -> real): CpaResult {
    Approach(RelativeMotion(own, target, cos))
  }

  function Approach(r: Relative): CpaResult {
    if SpeedSq(r) < SAME_VELOCITY then CpaResult(r.px * r.px + r.py * r.py, Infinite)
    else
      var t := -(r.px * r.vx + r.py * r.vy) / SpeedSq(r);
      CpaResult(DistanceSq(r, t), Finite(t))
  }

  lemma SquareExpansion(p: real, v: real, t: real)
    ensures (p + v * t) * (p + v * t) == p * p + 2.0 * t * (p * v) + t * t * (v * v)
  {
    assert (p + v * t) * (p + v * t) == p * p + 2.0 * (p * (v * t)) + (v * t) * (v * t);
    assert p * (v * t) == t * (p * v);
    assert (v * t) * (v * t) == t * t * (v * v);
  }

  lemma DistanceExpansion(r: Relative, t: real)
    ensures DistanceSq(r, t)
         == (r.px * r.px + r.py * r.py) + 2.0 * t * (r.px * r.vx + r.py * r.vy) + t * t * SpeedSq(r)
  {
    SquareExpansion(r.px, r.vx, t);
    SquareExpansion(r.py, r.vy, t);
  }

  lemma CompleteSquare(a: real, b: real, v: real, t: real, t0: real)
    requires v * t0 == -b
    ensures a + 2.0 * t * b + t * t * v == v * ((t - t0) * (t - t0)) + (a + 2.0 * t0 * b + t0 * t0 * v)
  {
    assert v * ((t - t0) * (t - t0)) == v * (t * t) - 2.0 * t * (v * t0) + t0 * (v * t0);
    assert t0 * t0 * v == t0 * (v * t0);
  }

  lemma QuotientBack(b: real, v: real)
    requires v != 0.0
    ensures v * (-b / v) == -b
  {}

  /** Main result: away from equal velocities the reported point is the vertex of
      the squared distance, at every time. */
  lemma ApproachIsVertex(r: Relative, t: real)
    requires SpeedSq(r) >= SAME_VELOCITY
    ensures var c := Approach(r);
            c.tcpa.Finite? && DistanceSq(r, t) == SpeedSq(r) * ((t - c.tcpa.t) * (t - c.tcpa.t)) + c.cpaSq
  {
    var t0, b := Approach(r).tcpa.t, r.px * r.vx + r.py * r.vy;
    QuotientBack(b, SpeedSq(r));
    DistanceExpansion(r, t);
    DistanceExpansion(r, t0);
    CompleteSquare(r.px * r.px + r.py * r.py, b, SpeedSq(r), t, t0);
  }

  /** So the vessels are never closer, and only then this close. */
  lemma ApproachIsLeast(r: Relative, t: real)
    requires SpeedSq(r) >= SAME_VELOCITY
    ensures Approach(r).cpaSq <= DistanceSq(r, t)
    ensures Approach(r).cpaSq == DistanceSq(r, t) <==> t == Approach(r).tcpa.t
  {
    ApproachIsVertex(r, t);
    var d := t - Approach(r).tcpa.t;
    SquarePositive(d);
    PositiveProduct(SpeedSq(r), d * d);
  }

  lemma SquarePositive(d: real)
    ensures d * d >= 0.0 && (d * d == 0.0 <==> d == 0.0)
  {
    if d > 0.0 {
      PositiveProduct(d, d);
    } else if d < 0.0 {
      PositiveProduct(-d, -d);
    }
  }

  lemma PositiveProduct(a: real, b: real)
    requires a > 0.0 && b >= 0.0
    ensures a * b >= 0.0 && (a * b == 0.0 <==> b == 0.0)
    ensures (-a) * (-b) == a * b
  {}

  /** Cauchy-Schwarz in the plane. */
  lemma DotBound(r: Relative)
    ensures var dot := r.px * r.vx + r.py * r.vy;
            dot * dot <= (r.px * r.px + r.py * r.py) * SpeedSq(r)
  {
    var (a, b, c, d) := (r.px, r.py, r.vx, r.vy);
    var cross := a * d - b * c;
    assert cross * cross == (a * d) * (a * d) - 2.0 * ((a * d) * (b * c)) + (b * c) * (b * c);
    assert (a * c + b * d) * (a * c + b * d) == (a * c) * (a * c) + 2.0 * ((a * c) * (b * d)) + (b * d) * (b * d);
    assert (a * a + b * b) * (c * c + d * d) == (a * c) * (a * c) + (a * d) * (a * d) + (b * c) * (b * c) + (b * d) * (b * d);
    assert (a * d) * (b * c) == (a * c) * (b * d);
  }

  lemma SquareOrder(x: real, y: real)
    requires 0.0 <= y && x * x <= y * y
    ensures -y <= x <= y
  {
    if x > y {
      assert x * x - y * y == (x - y) * (x + y);
      PositiveProduct(x - y, x + y);
    }
    if x < -y {
      assert x * x - y * y == (-x - y) * (-x + y);
      PositiveProduct(-x - y, -x + y);
    }
  }

  lemma ProductOrder(k: real, a: real, b: real)
    requires 0.0 <= k && a <= b
    ensures k * a <= k * b
  {
    PositiveProduct(if k == 0.0 then 1.0 else k, b - a);
    assert k * b - k * a == k * (b - a);
  }

  lemma DotStep(c: real, t: real, dot: real, v: real)
    requires 0.0 <= c && 0.0 <= v <= SAME_VELOCITY && dot * dot <= c * c * v
    ensures t * dot <= c * (0.001 * Abs(t))
  {
    var a := Abs(t);
    SquarePositive(c);
    ProductOrder(c * c, v, SAME_VELOCITY);
    assert (0.001 * c) * (0.001 * c) == c * c * SAME_VELOCITY;
    SquareOrder(dot, 0.001 * c);
    ProductOrder(a, dot, 0.001 * c);
    ProductOrder(a, -dot, 0.001 * c);
    assert t * dot == a * dot || t * dot == a * -dot;
    assert a * (0.001 * c) == c * (0.001 * a);
  }

  lemma SpeedStep(t: real, v: real)
    requires 0.0 <= v <= SAME_VELOCITY
    ensures t * t * v <= (0.001 * Abs(t)) * (0.001 * Abs(t))
  {
    SquarePositive(t);
    ProductOrder(t * t, v, SAME_VELOCITY);
    assert Abs(t) * Abs(t) == t * t;
    assert (0.001 * Abs(t)) * (0.001 * Abs(t)) == Abs(t) * Abs(t) * SAME_VELOCITY;
  }

  /** The distance grows by at most 1 mm per second. */
  lemma DriftBound(r: Relative, t: real, c: real, d: real)
    requires SpeedSq(r) < SAME_VELOCITY
    requires 0.0 <= c && c * c == r.px * r.px + r.py * r.py && 0.0 <= d && d * d == DistanceSq(r, t)
    ensures d <= c + 0.001 * Abs(t)
  {
    DistanceExpansion(r, t);
    DotBound(r);
    SquarePositive(r.vx);
    SquarePositive(r.vy);
    Drift(c, d, t, r.px * r.vx + r.py * r.vy, SpeedSq(r));
  }

  lemma Drift(c: real, d: real, t: real, dot: real, v: real)
    requires 0.0 <= c && 0.0 <= d && 0.0 <= v <= SAME_VELOCITY && dot * dot <= c * c * v
    requires d * d == c * c + 2.0 * t * dot + t * t * v
    ensures d <= c + 0.001 * Abs(t)
  {
    DotStep(c, t, dot, v);
    SpeedStep(t, v);
    SumOfSquares(c, 0.001 * Abs(t), d, t * dot, t * t * v);
  }

  lemma SumOfSquares(c: real, s: real, d: real, x: real, y: real)
    requires 0.0 <= c && 0.0 <= s && 0.0 <= d && x <= c * s && y <= s * s && d * d == c * c + 2.0 * x + y
    ensures d <= c + s
  {
    assert (c + s) * (c + s) == c * c + 2.0 * (c * s) + s * s;
    SquareOrder(d, c + s);
  }

  lemma BackInTime(r: Relative, back: Relative, t: real)
    requires back == Relative(r.px + r.vx * t, r.py + r.vy * t, r.vx, r.vy)
    ensures DistanceSq(back, -t) == r.px * r.px + r.py * r.py
    ensures back.px * back.px + back.py * back.py == DistanceSq(r, t) && SpeedSq(back) == SpeedSq(r)
  {
    assert back.px + back.vx * -t == r.px && back.py + back.vy * -t == r.py;
  }

  lemma DriftBoundBack(r: Relative, t: real, c: real, d: real)
    requires SpeedSq(r) < SAME_VELOCITY
    requires 0.0 <= c && c * c == r.px * r.px + r.py * r.py && 0.0 <= d && d * d == DistanceSq(r, t)
    ensures c <= d + 0.001 * Abs(t)
  {
    var back := Relative(r.px + r.vx * t, r.py + r.vy * t, r.vx, r.vy);
    BackInTime(r, back, t);
    DriftBound(back, -t, d, c);
  }

  /** With nearly equal velocities the present distance is reported; the distance
      `d` after `t` seconds differs from it by at most 1 mm per second. */
  lemma NearlyEqualVelocities(r: Relative, t: real, c: real, d: real)
    requires SpeedSq(r) < SAME_VELOCITY
    requires 0.0 <= c && c * c == Approach(r).cpaSq && 0.0 <= d && d * d == DistanceSq(r, t)
    ensures Abs(d - c) <= 0.001 * Abs(t)
  {
    DriftBound(r, t, c, d);
    DriftBoundBack(r, t, c, d);
  }

  /** Exchanging the vessels changes neither the distance nor the time. */
  lemma SwapInvariant(own: Motion, target: Motion, cos: real -> real)
    ensures ComputeCpa(own, target, cos) == ComputeCpa(target, own, cos)
  {
    var a, b := RelativeMotion(own, target, cos), RelativeMotion(target, own, cos);
    assert own.lat + target.lat == target.lat + own.lat;
    var k := cos(ToRadians((own.lat + target.lat) / 2.0));
    assert ToRadians(target.lon - own.lon) == -ToRadians(own.lon - target.lon);
    assert b.px == -a.px && b.py == -a.py && b.vx == -a.vx && b.vy == -a.vy;
    Mirrored(a, b);
  }

  lemma Mirrored(a: Relative, b: Relative)
    requires b == Relative(-a.px, -a.py, -a.vx, -a.vy)
    ensures Approach(a) == Approach(b)
  {
    MirroredProduct(a.px, a.px);
    MirroredProduct(a.py, a.py);
    MirroredProduct(a.vx, a.vx);
    MirroredProduct(a.vy, a.vy);
    MirroredProduct(a.px, a.vx);
    MirroredProduct(a.py, a.vy);
    if SpeedSq(a) >= SAME_VELOCITY {
      MirroredDistance(a, b, Approach(a).tcpa.t);
    }
  }

  lemma MirroredProduct(x: real, y: real)
    ensures (-x) * (-y) == x * y
  {}

  lemma MirroredDistance(a: Relative, b: Relative, t: real)
    requires b == Relative(-a.px, -a.py, -a.vx, -a.vy)
    ensures DistanceSq(a, t) == DistanceSq(b, t)
  {
    assert b.px + b.vx * t == -(a.px + a.vx * t) && b.py + b.vy * t == -(a.py + a.vy * t);
    MirroredProduct(a.px + a.vx * t, a.px + a.vx * t);
    MirroredProduct(a.py + a.vy * t, a.py + a.vy * t);
  }

  // ----- alarm levels -----

  datatype Level = Warn | Alarm

  /** `classify_cpa_alarm`: thresholds in metres and seconds, `None` disables. */
  function Classify(cpa: real, tcpa: Tcpa, tcpaMax: real, warn: Option<real>, alarm: Option<real>): Option<Level> {
    if tcpa.Finite? && 0.0 < tcpa.t < tcpaMax then
      if alarm.Some? && cpa < alarm.value then Some(Alarm)
      else if warn.Some? && cpa < warn.value then Some(Warn)
      else None
    else None
  }

  predicate Within(r: Relative, t: real, limit: Option<real>) {
    limit.Some? && limit.value > 0.0 && DistanceSq(r, t) < limit.value * limit.value
  }

  /** The vessels are closest at a time within the horizon, and then within `limit`. */
  ghost predicate ClosestWithin(r: Relative, horizon: real, limit: Option<real>) {
    exists t :: 0.0 < t < horizon && Within(r, t, limit) && Closest(r, t)
  }

  ghost predicate Closest(r: Relative, t: real) {
    forall u :: u != t ==> DistanceSq(r, t) < DistanceSq(r, u)
  }

  lemma OnlyClosest(r: Relative, t: real)
    requires SpeedSq(r) >= SAME_VELOCITY
    ensures Closest(r, t) <==> t == Approach(r).tcpa.t
  {
    var t0 := Approach(r).tcpa.t;
    forall u ensures u != t0 <==> DistanceSq(r, t0) < DistanceSq(r, u) {
      ApproachIsLeast(r, u);
    }
    if t != t0 {
      assert !(DistanceSq(r, t) < DistanceSq(r, t0));
    }
  }

  lemma WithinIffCloser(r: Relative, cpa: real, limit: Option<real>)
    requires SpeedSq(r) >= SAME_VELOCITY && 0.0 <= cpa && cpa * cpa == Approach(r).cpaSq
    ensures Within(r, Approach(r).tcpa.t, limit) <==> limit.Some? && cpa < limit.value
  {
    if limit.Some? && limit.value > 0.0 {
      SquareLess(cpa, limit.value);
    }
  }

  /** A limit is undercut exactly if the vessels will be closest within it. */
  lemma LimitMeaning(r: Relative, cpa: real, horizon: real, limit: Option<real>)
    requires SpeedSq(r) >= SAME_VELOCITY && 0.0 <= cpa && cpa * cpa == Approach(r).cpaSq
    ensures ClosestWithin(r, horizon, limit) <==> 0.0 < Approach(r).tcpa.t < horizon && limit.Some? && cpa < limit.value
  {
    var t0 := Approach(r).tcpa.t;
    WithinIffCloser(r, cpa, limit);
    OnlyClosest(r, t0);
    if ClosestWithin(r, horizon, limit) {
      var t :| 0.0 < t < horizon && Within(r, t, limit) && Closest(r, t);
      OnlyClosest(r, t);
    }
  }

  /** What the level says about the two courses; `cpa` is the root of the reported
      square. Nearly equal velocities raise nothing. */
  lemma ClassifyMeaning(r: Relative, cpa: real, horizon: real, warn: Option<real>, alarm: Option<real>)
    requires 0.0 <= cpa && cpa * cpa == Approach(r).cpaSq
    ensures var level := Classify(cpa, Approach(r).tcpa, horizon, warn, alarm);
            if SpeedSq(r) < SAME_VELOCITY then level == None
            else
              && (level == Some(Alarm) <==> ClosestWithin(r, horizon, alarm))
              && (level == Some(Warn) <==> ClosestWithin(r, horizon, warn) && !ClosestWithin(r, horizon, alarm))
  {
    if SpeedSq(r) >= SAME_VELOCITY {
      LimitMeaning(r, cpa, horizon, warn);
      LimitMeaning(r, cpa, horizon, alarm);
    }
  }

  lemma SquareLess(x: real, y: real)
    requires 0.0 <= x && 0.0 < y
    ensures x < y <==> x * x < y * y
  {
    assert y * y - x * x == (y - x) * (y + x);
    if x < y {
      PositiveProduct(y + x, y - x);
    } else {
      PositiveProduct(y + x, x - y);
      assert (y + x) * (x - y) == -((y - x) * (y + x));
    }
  }
}
