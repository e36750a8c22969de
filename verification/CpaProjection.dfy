/** What the projection of two positions to the plane keeps (crates/plugins/ais-status/src/cpa.rs). */
module CpaProjection {
  import opened Angles
  import opened Cpa

  /** Metres along a great circle. */
  function Arc(degrees: real): real {
    degrees * PI / 180.0 * 6_371_000.0
  }

  /** The projection keeps lengths along meridians and along parallels, whose circles shrink
      with the cosine of the latitude; between other positions it takes the difference in
      longitude at the middle latitude. */
  lemma ProjectionKeepsCircles(own: Motion, target: Motion, cos: real -> real)
    ensures var r, mid := RelativeMotion(own, target, cos), (own.lat + target.lat) / 2.0;
            && r.py == Arc(target.lat - own.lat)
            && (own.lon == target.lon ==> r.px == 0.0)
            && (own.lat == target.lat ==> r.py == 0.0 && r.px == Arc(target.lon - own.lon) * cos(own.lat * PI / 180.0))
            && r.px == RelativeMotion(own.(lat := mid), target.(lat := mid), cos).px
            && (r.vx, r.vy) == (target.vx - own.vx, target.vy - own.vy)
  {
    var mid := (own.lat + target.lat) / 2.0;
    assert (mid + mid) / 2.0 == mid;
    ArcOf(target.lat - own.lat);
    ArcOf(target.lon - own.lon);
    if own.lat == target.lat {
      assert mid == own.lat;
      assert ToRadians(mid) == own.lat * PI / 180.0;
      SameFactor(ToRadians(target.lon - own.lon), cos(ToRadians(mid)));
    }
  }

  lemma ArcOf(degrees: real)
    ensures ToRadians(degrees) * EARTH_RADIUS_M == Arc(degrees)
  {}

  lemma SameFactor(x: real, k: real)
    ensures x * k * EARTH_RADIUS_M == x * EARTH_RADIUS_M * k
  {}

  // ----- two vessels on one meridian -----

  /** A vessel with a speed over ground and a course, clockwise from north. */
  function Underway(lat: real, lon: real, sog: real, cog: real, sin: real -> real, cos: real -> real): Motion {
    Motion(lat, lon, sog * sin(cog), sog * cos(cog))
  }

  /** The sine and cosine of due north and due south. */
  predicate NorthAndSouth(sin: real -> real, cos: real -> real) {
    sin(0.0) == 0.0 && cos(0.0) == 1.0 && sin(PI) == 0.0 && cos(PI) == -1.0
  }

  lemma OnTheLine(y: real, v: real, t: real)
    requires v != 0.0 && t == -(0.0 * 0.0 + y * v) / (0.0 * 0.0 + v * v)
    ensures y + v * t == 0.0 && t * v == -y
  {
    assert v * v != 0.0;
    assert t * (v * v) == -(y * v);
    assert (t * v) * v == (-y) * v;
    SameQuotient(t * v, -y, v);
  }

  lemma SameQuotient(a: real, b: real, v: real)
    requires v != 0.0 && a * v == b * v
    ensures a == b
  {
    assert (a - b) * v == 0.0;
  }

  /** Bound north and south on one meridian, vessels meet, or would have met, when the
      relative speed has covered the distance between them: with no distance left. */
  lemma MeetingOnMeridian(own: real, target: real, lon: real, a: real, b: real, sin: real -> real, cos: real -> real)
    requires NorthAndSouth(sin, cos) && (a + b) * (a + b) >= SAME_VELOCITY
    ensures var c := ComputeCpa(Underway(own, lon, a, 0.0, sin, cos), Underway(target, lon, b, PI, sin, cos), cos);
            c.cpaSq == 0.0 && c.tcpa.Finite? && c.tcpa.t * (a + b) == Arc(target - own)
  {
    var (x, y) := (Underway(own, lon, a, 0.0, sin, cos), Underway(target, lon, b, PI, sin, cos));
    var r := RelativeMotion(x, y, cos);
    ProjectionKeepsCircles(x, y, cos);
    assert r.vx == 0.0 && r.vy == -(a + b) && r.px == 0.0;
    assert r.vy * r.vy == (a + b) * (a + b);
    var t := Approach(r).tcpa.t;
    OnTheLine(r.py, r.vy, t);
    assert DistanceSq(r, t) == 0.0;
    assert t * (a + b) == -(t * r.vy);
  }
}
