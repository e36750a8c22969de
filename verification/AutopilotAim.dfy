/** What a pass of the autopilot's control loop steers at, and how its gains adapt
    (crates/plugins/autopilot/src/lib.rs, modes/route.rs, pd.rs, state.rs). */
module AutopilotAim {
  import opened Basics
  import opened Angles
  import opened AutopilotControl
  import opened AutopilotFilter
  import opened AutopilotProvider
  import opened AutopilotLoop
  import opened AutopilotDecisions

  // ----- the aim -----

  /** The target moved by the dodge; in route mode the bearing turned towards the track. */
  function Aim(cfg: Config, m: Maths, snap: Snapshot): real
    requires InputsPresent(snap)
  {
    if snap.mode == Route
    then snap.primary.value + m.atan((if snap.xte.Some? then snap.xte.value else 0.0) / Max(cfg.routeLookahead, 1.0))
    else (if snap.target.Some? then snap.target.value else 0.0) + (if snap.dodge.Some? then snap.dodge.value else 0.0)
  }

  lemma CongruentMinus(a: real, b: real, x: real, e: real)
    requires Congruent(a, b) && Congruent(b - x, e)
    ensures Congruent(a - x, e)
  {
    var j: int :| a == b + Turns(j);
    var k: int :| b - x == e + Turns(k);
    assert a - x == e + Turns(j + k);
  }

  lemma WantedIsAim(cfg: Config, m: Maths, snap: Snapshot)
    requires InputsPresent(snap)
    ensures Congruent(Aim(cfg, m, snap), Wanted(cfg, m, snap))
  {
    if snap.mode == Route {
      NormalizeAngleWraps(Aim(cfg, m, snap));
    } else {
      assert Aim(cfg, m, snap) == Wanted(cfg, m, snap) + Turns(0);
    }
  }

  /** Main result: in every mode the error leads to the aim by the shorter turn, from the
      heading or, in the wind modes, from the filtered wind angle. */
  lemma ErrorLeadsToAim(cfg: Config, m: Maths, l: Local, snap: Snapshot, heading: Option<real>, now: int, dt: real)
    requires ValidConfig(cfg) && dt != 0.0 && (heading.Some? <==> snap.heading.Some?) && InputsPresent(snap)
    ensures var o, held := SteerWith(cfg, m, l, snap, heading, now, dt).1, Held(cfg, m, l, snap, heading);
            o.Steer? && LeadsTo(held, o.error, Aim(cfg, m, snap)) && (snap.mode == Compass || snap.mode == Route ==> Some(held) == heading)
  {
    ErrorLeadsToTarget(cfg, m, l, snap, heading, now, dt);
    WantedIsAim(cfg, m, snap);
    CongruentMinus(Aim(cfg, m, snap), Wanted(cfg, m, snap), Held(cfg, m, l, snap, heading), SteerWith(cfg, m, l, snap, heading, now, dt).1.error);
  }

  /** A steady wind angle is held as it is, from the first sample on. */
  lemma SteadyWindIsHeld(cfg: Config, m: Maths, l: Local, angle: real)
    requires m.atan2(m.sin(angle), m.cos(angle)) == angle
    requires l.wind == (None, None) || l.wind == (Some(m.sin(angle)), Some(m.cos(angle)))
    ensures FilterWind(cfg, l, angle, m).1 == angle && FilterWind(cfg, l, angle, m).0.wind == (Some(m.sin(angle)), Some(m.cos(angle)))
  {
    ZeroProduct(cfg.windFilterAlpha);
  }

  lemma ZeroProduct(x: real)
    ensures x * 0.0 == 0.0
  {}

  /** Without a believed rate of turn the change of the error since the last tick stands for
      it: the controller sees the turn that changed the error by `change` in `dt`. */
  lemma ErrorChangeStandsForTurn(cfg: Config, l: Local, error: real, prevError: real, change: real, rate: real, dt: real, gains: PidConfig)
    requires ValidConfig(cfg) && 0.0 <= gains.maxRudder && dt != 0.0
    requires Wraps(error - prevError, change) && rate * dt == -change
    ensures Hold(cfg, l, error, prevError, None, dt, gains) == Hold(cfg, l, error, prevError, Some(rate), dt, gains)
  {
    NormalizeAngleWraps(error - prevError);
    WrapsUnique(error - prevError, change, NormalizeAngle(error - prevError));
    QuotientOfProduct(rate, dt, change);
  }

  lemma QuotientOfProduct(rate: real, dt: real, change: real)
    requires dt != 0.0 && rate * dt == -change
    ensures change / dt == -rate
  {
    assert (-rate) * dt == change;
    assert ((-rate) * dt) / dt == -rate;
  }

  // ----- adapted gains -----

  lemma ScaledTerm(factor: real, gain: real, x: real)
    ensures (gain * factor) * x == factor * (gain * x)
  {}

  /** While recovering the rudder forgets the integral, and scales the other two terms. */
  lemma RecoveryDropsIntegral(r: Recovery, integral: real, limit: real, error: real, dError: real, dt: real, cfg: PidConfig, factor: real)
    requires r.active && 0.0 <= limit && 0.0 <= cfg.maxRudder && dt > 0.0 && Abs(error) >= cfg.deadZone
    ensures PidStep(integral, limit, error, dError, dt, RecoveryGains(r, cfg, factor)).1
         == Clamp(factor * (cfg.gainP * error) + factor * (cfg.gainD * dError), -cfg.maxRudder, cfg.maxRudder)
  {
    var g := RecoveryGains(r, cfg, factor);
    RudderOfNewIntegral(integral, limit, error, dError, dt, g);
    RecoveryOutput(r, PidStep(integral, limit, error, dError, dt, g).0, error, dError, cfg, factor);
  }

  lemma RecoveryOutput(r: Recovery, integral: real, error: real, dError: real, cfg: PidConfig, factor: real)
    requires r.active
    ensures RawOutput(integral, error, dError, RecoveryGains(r, cfg, factor)) == factor * (cfg.gainP * error) + factor * (cfg.gainD * dError)
  {
    ScaledTerm(factor, cfg.gainP, error);
    ScaledTerm(factor, cfg.gainD, dError);
    ZeroProduct(integral);
  }

  /** A heading seen just now leaves the derivative gain as it is, one as old as the half-life
      halves it, one never seen takes it away; the other gains do not depend on its age. */
  lemma QualityFadesDerivative(cfg: Config, snap: Snapshot, m: Maths)
    requires cfg.qualityHalfLife > 0.0 && m.exp2(0.0) == 1.0 && m.exp2(-1.0) == 0.5
    ensures var g, full := Gains(cfg, snap, m), Gains(cfg.(qualityHalfLife := 0.0), snap, m);
            && g.(gainD := full.gainD) == full
            && (snap.headingAge == None ==> g.gainD == 0.0)
            && (snap.headingAge == Some(0.0) ==> g.gainD == full.gainD)
            && (snap.headingAge == Some(cfg.qualityHalfLife) ==> g.gainD == full.gainD * 0.5)
  {
    QuotientOfItself(cfg.qualityHalfLife);
    ZeroProduct(Gains(cfg.(qualityHalfLife := 0.0), snap, m).gainD);
  }

  lemma QuotientOfItself(x: real)
    requires x != 0.0
    ensures -x / x == -1.0 && -0.0 / x == 0.0
  {}

  // ----- the pace of the commands -----

  /** The command rate divides the control rate by the nearest whole number from one up. */
  lemma OutputEveryIsNearest(cfg: Config)
    ensures var n, ratio := OutputEvery(cfg), cfg.controlRate / Max(cfg.outputRate, 0.1);
            n >= 1 && if ratio < 1.5 then n == 1 else n as real - 0.5 <= ratio < n as real + 0.5
  {}

  /** Where the loop is after a waking that follows `k` others; nothing else counts them. */
  function WokenAt(cfg: Config, l: Local, s: Shared, now: int, k: nat): Phase {
    Wake(cfg, l.(ticks := l.ticks + k), s, now).1
  }

  /** Of the next `OutputEvery` wakings only the one after `k` others is to emit. */
  ghost predicate OnlyDue(cfg: Config, l: Local, s: Shared, now: int, k: nat) {
    k < OutputEvery(cfg) && forall i :: 0 <= i < OutputEvery(cfg) ==> (WokenAt(cfg, l, s, now, i).due <==> i == k)
  }

  /** Of as many wakings in a row as `OutputEvery` says, exactly one is to emit. */
  lemma OneDueInEachCycle(cfg: Config, l: Local, s: Shared, now: int) returns (k: nat)
    ensures OnlyDue(cfg, l, s, now, k)
  {
    var n := OutputEvery(cfg);
    k := n - 1 - l.ticks % n;
    forall i | 0 <= i < n ensures WokenAt(cfg, l, s, now, i).due <==> i == k {
      CycleOf(l.ticks, i, n);
    }
  }

  lemma CycleOf(ticks: nat, i: nat, n: nat)
    requires i < n
    ensures (ticks + i + 1) % n == 0 <==> i == n - 1 - ticks % n
  {
    CyclePart(ticks / n, ticks % n, i, n, ticks + i + 1);
  }

  lemma CyclePart(q: nat, r: nat, i: nat, n: nat, x: nat)
    requires r < n && i < n && x == q * n + r + i + 1
    ensures x % n == 0 <==> i == n - 1 - r
  {
    if r + i + 1 < n {
      RemainderOf(q, n, r + i + 1);
    } else {
      NextMultiple(q, n);
      RemainderOf(q + 1, n, r + i + 1 - n);
    }
  }

  lemma NextMultiple(q: nat, n: nat)
    ensures (q + 1) * n == q * n + n
  {}

  lemma RemainderOf(q: nat, n: nat, r: nat)
    requires r < n
    ensures (q * n + r) % n == r
  {
    var x := q * n + r;
    assert x == (x / n) * n + x % n;
    OnlyMultiple(x / n - q, n, r - x % n);
  }

  lemma OnlyMultiple(d: int, n: int, diff: int)
    requires 0 < n && -n < diff < n
    ensures d * n == diff ==> diff == 0
  {
    if d >= 1 {
      assert d * n >= n;
    } else if d <= -1 {
      assert d * n <= -n;
    }
  }
}
