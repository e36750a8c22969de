/** Control algorithms of the autopilot over the reals: angle wrapping, PID with
    anti-windup, gain scheduling, recovery mode, monitors and rate limiting
    (crates/plugins/autopilot/src/pd.rs). */
module AutopilotControl {
  import opened Basics
  import opened Angles

  // ----- angle normalization -----

  /** `r` is `a` wrapped by whole turns; at the seam the sign of `a` decides. */
  ghost predicate Wraps(a: real, r: real) {
    && -PI <= r <= PI && Congruent(a, r)
    && (a > PI ==> r > -PI)
    && (a < -PI ==> r < PI)
    && (-PI <= a <= PI ==> r == a)
  }

  lemma WrapsUnique(a: real, r: real, s: real)
    requires Wraps(a, r) && Wraps(a, s)
    ensures r == s
  {
    var j: int :| a == r + Turns(j);
    var k: int :| a == s + Turns(k);
    assert r - s == Turns(k - j);
  }

  /** The wrapped angle as a function: subtract or add just enough turns. */
  function NormalizeAngle(a: real): real {
    if a > PI then a - Turns(-((PI - a) / (2.0 * PI)).Floor)
    else if a < -PI then a + Turns(-((a + PI) / (2.0 * PI)).Floor)
    else a
  }

  lemma NormalizeAngleWraps(a: real)
    ensures Wraps(a, NormalizeAngle(a))
  {
    if a > PI {
      var k := -((PI - a) / (2.0 * PI)).Floor;
      assert a == NormalizeAngle(a) + Turns(k);
    } else if a < -PI {
      var k := ((a + PI) / (2.0 * PI)).Floor;
      assert a == NormalizeAngle(a) + Turns(k);
    } else {
      assert a == a + Turns(0);
    }
  }

  lemma OneTurnMore(a: real, x: real, k: int)
    requires a == x + Turns(k)
    ensures a == x - 2.0 * PI + Turns(k + 1) && a == x + 2.0 * PI + Turns(k - 1)
  {}

  /** The source's loops, which terminate in exact arithmetic for every angle. */
  method NormalizeByLoop(a: real) returns (x: real)
    ensures x == NormalizeAngle(a)
  {
    x := a;
    ghost var k := 0;
    while x > PI
      invariant a == x + Turns(k)
      invariant x != a ==> a > PI && x > -PI
      decreases x
    {
      OneTurnMore(a, x, k);
      x, k := x - 2.0 * PI, k + 1;
    }
    while x < -PI
      invariant a == x + Turns(k) && x <= PI
      invariant x != a ==> (a > PI && x > -PI) || (a < -PI && x < PI)
      decreases -x
    {
      OneTurnMore(a, x, k);
      x, k := x + 2.0 * PI, k - 1;
    }
    assert Wraps(a, x);
    NormalizeAngleWraps(a);
    WrapsUnique(a, x, NormalizeAngle(a));
  }

  // ----- PID -----

  datatype PidConfig = PidConfig(gainP: real, gainI: real, gainD: real, deadZone: real, maxRudder: real)

  /** `f64::signum` without negative zero. */
  function Signum(x: real): real {
    if x >= 0.0 then 1.0 else -1.0
  }

  /** The unclamped output of the three terms. */
  function RawOutput(integral: real, error: real, dError: real, cfg: PidConfig): real {
    cfg.gainP * error + cfg.gainI * integral + cfg.gainD * dError
  }

  /** The integral is updated unless the output is saturated with the error on its side. */
  predicate Integrates(integral: real, error: real, dError: real, cfg: PidConfig) {
    Abs(RawOutput(integral, error, dError, cfg)) < cfg.maxRudder || Signum(error) != Signum(integral)
  }

  /** New integral and commanded rudder of one tick. */
  function PidStep(integral: real, limit: real, error: real, dError: real, dt: real, cfg: PidConfig): (real, real)
    requires 0.0 <= limit && 0.0 <= cfg.maxRudder
  {
    if dt <= 0.0 then (integral, 0.0)
    else if Abs(error) < cfg.deadZone then (integral * 0.95, 0.0)
    else
      var next := if Integrates(integral, error, dError, cfg) then Clamp(integral + error * dt, -limit, limit) else integral;
      (next, Clamp(RawOutput(next, error, dError, cfg), -cfg.maxRudder, cfg.maxRudder))
  }

  class PidController {
    var integral: real
    const integralLimit: real

    ghost predicate Valid()
      reads this
    {
      Abs(integral) <= integralLimit
    }

    constructor (integralLimit: real)
      requires 0.0 <= integralLimit
      ensures Valid() && integral == 0.0 && this.integralLimit == integralLimit
    {
      integral := 0.0;
      this.integralLimit := integralLimit;
    }

    method Reset()
      requires Valid()
      modifies this
      ensures Valid() && integral == 0.0
    {
      integral := 0.0;
    }

    method Compute(error: real, dError: real, dt: real, cfg: PidConfig) returns (rudder: real)
      requires Valid() && 0.0 <= cfg.maxRudder
      modifies this
      ensures Valid() && (integral, rudder) == PidStep(old(integral), integralLimit, error, dError, dt, cfg)
      ensures Abs(rudder) <= cfg.maxRudder
      ensures dt <= 0.0 || Abs(error) < cfg.deadZone ==> rudder == 0.0
    {
      if dt <= 0.0 {
        return 0.0;
      }
      if Abs(error) < cfg.deadZone {
        integral := integral * 0.95;
        return 0.0;
      }
      var prospective := RawOutput(integral, error, dError, cfg);
      if Abs(prospective) < cfg.maxRudder || Signum(error) != Signum(integral) {
        integral := integral + error * dt;
        integral := Clamp(integral, -integralLimit, integralLimit);
      }
      var output := RawOutput(integral, error, dError, cfg);
      rudder := Clamp(output, -cfg.maxRudder, cfg.maxRudder);
    }
  }

  /** The integral never winds up further while the output is saturated, and always
      unwinds when the error has changed sides. */
  lemma AntiWindup(integral: real, limit: real, error: real, dError: real, dt: real, cfg: PidConfig)
    requires 0.0 <= limit && 0.0 <= cfg.maxRudder && Abs(integral) <= limit && dt > 0.0 && cfg.deadZone <= Abs(error)
    ensures var next := PidStep(integral, limit, error, dError, dt, cfg).0;
            && Abs(next) <= limit
            && (Abs(next) > Abs(integral) && Signum(error) == Signum(integral)
                ==> Abs(RawOutput(integral, error, dError, cfg)) < cfg.maxRudder)
            && (Signum(error) != Signum(integral)
                ==> next == Clamp(integral + error * dt, -limit, limit))
  {}

  lemma PidBounds(integral: real, limit: real, error: real, dError: real, dt: real, cfg: PidConfig)
    requires 0.0 <= limit && 0.0 <= cfg.maxRudder && Abs(integral) <= limit
    ensures var (next, rudder) := PidStep(integral, limit, error, dError, dt, cfg);
            Abs(next) <= limit && Abs(rudder) <= cfg.maxRudder
  {}

  /** Away from zero the controller treats port and starboard alike. */
  lemma PidIsOdd(integral: real, limit: real, error: real, dError: real, dt: real, cfg: PidConfig)
    requires 0.0 <= limit && 0.0 <= cfg.maxRudder && integral != 0.0 && error != 0.0
    ensures var (next, rudder) := PidStep(integral, limit, error, dError, dt, cfg);
            PidStep(-integral, limit, -error, -dError, dt, cfg) == (-next, -rudder)
  {
    RawOutputIsOdd(integral, error, dError, cfg);
    RawOutputIsOdd(PidStep(integral, limit, error, dError, dt, cfg).0, error, dError, cfg);
    assert (-error) * dt == -(error * dt);
    assert (-integral) * 0.95 == -(integral * 0.95);
  }

  lemma RawOutputIsOdd(integral: real, error: real, dError: real, cfg: PidConfig)
    ensures RawOutput(-integral, -error, -dError, cfg) == -RawOutput(integral, error, dError, cfg)
  {
    NegatedFactor(cfg.gainP, error);
    NegatedFactor(cfg.gainI, integral);
    NegatedFactor(cfg.gainD, dError);
  }

  lemma NegatedFactor(x: real, y: real)
    ensures x * (-y) == -(x * y)
  {}

  /** From an integral of zero, whose sign counts as positive, it does so exactly while
      the output is not saturated: a saturated controller winds up to port only. */
  lemma PidIsOddFromZeroIffUnsaturated(limit: real, error: real, dError: real, dt: real, cfg: PidConfig)
    requires 0.0 < limit && 0.0 <= cfg.maxRudder && 0.0 < dt && 0.0 < error && cfg.deadZone <= error
    ensures var (next, rudder) := PidStep(0.0, limit, error, dError, dt, cfg);
            PidStep(0.0, limit, -error, -dError, dt, cfg) == (-next, -rudder)
            <==> Abs(RawOutput(0.0, error, dError, cfg)) < cfg.maxRudder
  {
    RawOutputIsOdd(0.0, error, dError, cfg);
    RawOutputIsOdd(PidStep(0.0, limit, error, dError, dt, cfg).0, error, dError, cfg);
    assert (-error) * dt == -(error * dt);
    assert error * dt > 0.0;
  }

  lemma TermDifference(gain: real, x: real, y: real)
    ensures gain * (x - y) == gain * x - gain * y
  {}

  lemma OutputDifference(integral: real, e: real, d: real, e': real, d': real, cfg: PidConfig)
    ensures RawOutput(integral, e, d, cfg) - RawOutput(integral, e', d', cfg) == cfg.gainP * (e - e') + cfg.gainD * (d - d')
  {
    TermDifference(cfg.gainP, e, e');
    TermDifference(cfg.gainD, d, d');
  }

  /** The rudder is the clamped output at the new integral. */
  lemma RudderOfNewIntegral(integral: real, limit: real, error: real, dError: real, dt: real, cfg: PidConfig)
    requires 0.0 <= limit && 0.0 <= cfg.maxRudder && dt > 0.0 && Abs(error) >= cfg.deadZone
    ensures var (next, rudder) := PidStep(integral, limit, error, dError, dt, cfg);
            rudder == Clamp(RawOutput(next, error, dError, cfg), -cfg.maxRudder, cfg.maxRudder)
  {}

  /** The proportional and derivative terms: unsaturated rudders at equal new integrals
      differ by each gain times the difference of its input. */
  lemma RuddersDifferByTerms(was: real, limit: real, error: real, dError: real, dt: real,
                             was': real, limit': real, error': real, dError': real, dt': real, cfg: PidConfig)
    requires 0.0 <= limit && 0.0 <= limit' && 0.0 <= cfg.maxRudder
    requires dt > 0.0 && dt' > 0.0 && Abs(error) >= cfg.deadZone && Abs(error') >= cfg.deadZone
    ensures var a, b := PidStep(was, limit, error, dError, dt, cfg), PidStep(was', limit', error', dError', dt', cfg);
            a.0 == b.0 && Abs(a.1) < cfg.maxRudder && Abs(b.1) < cfg.maxRudder ==>
              a.1 - b.1 == cfg.gainP * (error - error') + cfg.gainD * (dError - dError')
  {
    RudderOfNewIntegral(was, limit, error, dError, dt, cfg);
    RudderOfNewIntegral(was', limit', error', dError', dt', cfg);
    OutputDifference(PidStep(was, limit, error, dError, dt, cfg).0, error, dError, error', dError', cfg);
  }

  /** The integral term: alone, it is the integral gain times the new integral. */
  lemma IntegralActsAlone(integral: real, limit: real, error: real, dError: real, dt: real, cfg: PidConfig)
    requires 0.0 <= limit && 0.0 <= cfg.maxRudder && dt > 0.0 && Abs(error) >= cfg.deadZone && cfg.gainP == 0.0 && cfg.gainD == 0.0
    ensures var (next, rudder) := PidStep(integral, limit, error, dError, dt, cfg);
            rudder == Clamp(cfg.gainI * next, -cfg.maxRudder, cfg.maxRudder)
  {
    RudderOfNewIntegral(integral, limit, error, dError, dt, cfg);
    ZeroTerm(error);
    ZeroTerm(dError);
  }

  lemma ZeroTerm(x: real)
    ensures 0.0 * x == 0.0
  {}

  lemma LargerTerm(gain: real, x: real, y: real)
    requires gain >= 0.0 && x <= y
    ensures gain * x <= gain * y
  {}

  /** Outputs before and after integrating, of a smaller and a larger derivative. */
  lemma SaturationKeepsOrder(a: real, a': real, b: real, b': real, limit: real, sides: bool)
    requires 0.0 <= limit && a <= a' && b <= b'
    ensures Clamp(if Abs(a) < limit || sides then b else a, -limit, limit) <= Clamp(if Abs(a') < limit || sides then b' else a', -limit, limit)
  {}

  /** The derivative term damps, through saturation and anti-windup alike: a smaller
      derivative never gives a larger rudder. */
  lemma DerivativeDamps(integral: real, limit: real, error: real, d: real, d': real, dt: real, cfg: PidConfig)
    requires 0.0 <= limit && 0.0 <= cfg.maxRudder && cfg.gainD >= 0.0 && d <= d'
    ensures PidStep(integral, limit, error, d, dt, cfg).1 <= PidStep(integral, limit, error, d', dt, cfg).1
  {
    if dt > 0.0 && Abs(error) >= cfg.deadZone {
      var next := Clamp(integral + error * dt, -limit, limit);
      LargerTerm(cfg.gainD, d, d');
      SaturationKeepsOrder(RawOutput(integral, error, d, cfg), RawOutput(integral, error, d', cfg),
                           RawOutput(next, error, d, cfg), RawOutput(next, error, d', cfg),
                           cfg.maxRudder, Signum(error) != Signum(integral));
    }
  }

  // ----- gain scheduling -----

  function ScaleGains(cfg: PidConfig, speed: real, nominal: real): PidConfig {
    if nominal <= 0.0 || speed <= 0.0 then cfg
    else
      var ratio := Clamp(speed / nominal, 0.3, 3.0);
      cfg.(gainP := cfg.gainP * ratio, gainI := cfg.gainI * ratio, gainD := cfg.gainD / ratio)
  }

  lemma SpeedRatio(speed: real, nominal: real)
    requires nominal > 0.0 && speed > 0.0
    ensures speed / nominal * nominal == speed
    ensures speed <= 0.3 * nominal <==> speed / nominal <= 0.3
    ensures speed >= 3.0 * nominal <==> speed / nominal >= 3.0
  {}

  /** Scheduling scales the proportional gain with the speed, within factors 0.3 and 3; it
      trades proportional against derivative gain and keeps their product. */
  lemma ScalingKeepsProduct(cfg: PidConfig, speed: real, nominal: real)
    ensures var s := ScaleGains(cfg, speed, nominal);
            && s.gainP * s.gainD == cfg.gainP * cfg.gainD
            && s.gainP * cfg.gainI == s.gainI * cfg.gainP
            && s.deadZone == cfg.deadZone && s.maxRudder == cfg.maxRudder
            && (nominal > 0.0 && 0.3 * nominal <= speed <= 3.0 * nominal ==> s.gainP * nominal == cfg.gainP * speed)
            && (nominal > 0.0 && 0.0 < speed <= 0.3 * nominal ==> s.gainP == cfg.gainP * 0.3)
            && (nominal > 0.0 && speed >= 3.0 * nominal ==> s.gainP == cfg.gainP * 3.0)
  {
    if nominal > 0.0 && speed > 0.0 {
      SpeedRatio(speed, nominal);
      var ratio := Clamp(speed / nominal, 0.3, 3.0);
      assert (cfg.gainP * ratio) * (cfg.gainD / ratio) == cfg.gainP * cfg.gainD * (ratio / ratio);
    }
  }

  // ----- recovery mode -----

  datatype Recovery = Recovery(active: bool, ticksRemaining: nat)

  function RecoveryStep(r: Recovery, error: real, threshold: real, maxTicks: nat): Recovery {
    if threshold <= 0.0 then r
    else
      var started := if !r.active && Abs(error) > threshold then Recovery(true, maxTicks) else r;
      if !started.active then started
      else
        var left := if started.ticksRemaining == 0 then 0 else started.ticksRemaining - 1;
        Recovery(!(left == 0 || Abs(error) < threshold * 0.3), left)
  }

  function RecoveryGains(r: Recovery, cfg: PidConfig, factor: real): PidConfig {
    if !r.active then cfg else cfg.(gainP := cfg.gainP * factor, gainI := 0.0, gainD := cfg.gainD * factor)
  }

  class RecoveryState {
    var active: bool
    var ticksRemaining: nat

    ghost function State(): Recovery
      reads this
    {
      Recovery(active, ticksRemaining)
    }

    constructor ()
      ensures State() == Recovery(false, 0)
    {
      active, ticksRemaining := false, 0;
    }

    /** Returns whether recovery is active; with a non-positive threshold it
        reports inactive without looking at the state. */
    method Update(error: real, threshold: real, maxTicks: nat) returns (isActive: bool)
      modifies this
      ensures State() == RecoveryStep(old(State()), error, threshold, maxTicks)
      ensures isActive == (threshold > 0.0 && active)
    {
      if threshold <= 0.0 {
        return false;
      }
      if !active && Abs(error) > threshold {
        active := true;
        ticksRemaining := maxTicks;
      }
      if active {
        ticksRemaining := if ticksRemaining == 0 then 0 else ticksRemaining - 1;
        if ticksRemaining == 0 || Abs(error) < threshold * 0.3 {
          active := false;
        }
      }
      isActive := active;
    }

    method Reset()
      modifies this
      ensures State() == Recovery(false, 0)
    {
      active, ticksRemaining := false, 0;
    }
  }

  /** Recovery starts on an error above the threshold, and ends on one below three tenths of
      it or when its ticks are used up. */
  lemma RecoverySwitchesIff(r: Recovery, error: real, threshold: real, maxTicks: nat)
    requires threshold > 0.0
    ensures var next := RecoveryStep(r, error, threshold, maxTicks);
            && (!r.active ==> (next.active <==> Abs(error) > threshold && maxTicks > 1))
            && (r.active ==> (next.active <==> Abs(error) >= threshold * 0.3 && r.ticksRemaining > 1))
  {}

  function RecoveryRun(errors: seq<real>, threshold: real, maxTicks: nat): Recovery {
    if errors == [] then Recovery(false, 0)
    else RecoveryStep(RecoveryRun(errors[..|errors| - 1], threshold, maxTicks), errors[|errors| - 1], threshold, maxTicks)
  }

  /** For how many ticks, up to now, recovery has been active without a break. */
  function ActiveStreak(errors: seq<real>, threshold: real, maxTicks: nat): nat {
    if errors == [] || !RecoveryRun(errors, threshold, maxTicks).active then 0
    else 1 + ActiveStreak(errors[..|errors| - 1], threshold, maxTicks)
  }

  /** Recovery is never active for `maxTicks` ticks in a row, whatever the errors. */
  lemma {:induction false} RecoveryIsBounded(errors: seq<real>, threshold: real, maxTicks: nat)
    ensures var r, streak := RecoveryRun(errors, threshold, maxTicks), ActiveStreak(errors, threshold, maxTicks);
            && (threshold <= 0.0 ==> !r.active)
            && (r.active ==> r.ticksRemaining > 0 && streak + r.ticksRemaining == maxTicks)
            && (streak == 0 || streak < maxTicks)
  {
    if errors != [] {
      var before := errors[..|errors| - 1];
      RecoveryIsBounded(before, threshold, maxTicks);
      var r := RecoveryRun(before, threshold, maxTicks);
      assert !r.active ==> ActiveStreak(before, threshold, maxTicks) == 0;
      var next := RecoveryStep(r, errors[|errors| - 1], threshold, maxTicks);
      assert RecoveryRun(errors, threshold, maxTicks) == next;
      assert next.active ==> ActiveStreak(errors, threshold, maxTicks) == 1 + ActiveStreak(before, threshold, maxTicks);
    }
  }

  // ----- rudder feedback -----

  datatype Feedback = Feedback(mismatchTicks: nat, alarm: bool)

  /** The monitor after one tick; `None` is a tick without feedback. */
  function FeedbackStep(f: Feedback, commanded: real, actual: Option<real>, threshold: real, timeout: nat): Feedback {
    if threshold <= 0.0 || actual.None? then f
    else if Abs(commanded - actual.value) > threshold then
      Feedback(f.mismatchTicks + 1, f.alarm || f.mismatchTicks + 1 >= timeout)
    else Feedback(0, false)
  }

  class RudderFeedbackMonitor {
    var mismatchTicks: nat
    var alarmActive: bool

    ghost function State(): Feedback
      reads this
    {
      Feedback(mismatchTicks, alarmActive)
    }

    constructor ()
      ensures State() == Feedback(0, false)
    {
      mismatchTicks, alarmActive := 0, false;
    }

    /** Reports exactly the changes of the alarm. */
    method Update(commanded: real, actual: Option<real>, threshold: real, timeout: nat) returns (change: Option<bool>)
      modifies this
      ensures State() == FeedbackStep(old(State()), commanded, actual, threshold, timeout)
      ensures change == if alarmActive == old(alarmActive) then None else Some(alarmActive)
    {
      if threshold <= 0.0 {
        return None;
      }
      if actual.None? {
        return None;
      }
      var mismatch := Abs(commanded - actual.value);
      if mismatch > threshold {
        mismatchTicks := mismatchTicks + 1;
        if mismatchTicks >= timeout && !alarmActive {
          alarmActive := true;
          return Some(true);
        }
      } else {
        mismatchTicks := 0;
        if alarmActive {
          alarmActive := false;
          return Some(false);
        }
      }
      change := None;
    }

    method Reset()
      modifies this
      ensures State() == Feedback(0, false)
    {
      mismatchTicks, alarmActive := 0, false;
    }
  }

  /** One tick's commanded rudder and feedback. */
  type Observation = (real, Option<real>)

  function FeedbackRun(obs: seq<Observation>, threshold: real, timeout: nat): Feedback {
    if obs == [] then Feedback(0, false)
    else
      var (commanded, actual) := obs[|obs| - 1];
      FeedbackStep(FeedbackRun(obs[..|obs| - 1], threshold, timeout), commanded, actual, threshold, timeout)
  }

  /** Mismatching feedback readings since the last matching one. */
  function MismatchStreak(obs: seq<Observation>, threshold: real): nat {
    if obs == [] then 0
    else
      var (commanded, actual) := obs[|obs| - 1];
      if actual.None? then MismatchStreak(obs[..|obs| - 1], threshold)
      else if Abs(commanded - actual.value) > threshold then MismatchStreak(obs[..|obs| - 1], threshold) + 1
      else 0
  }

  /** The alarm is on exactly while the readings have mismatched often enough in a row. */
  lemma {:induction false} AlarmIffEnoughMismatches(obs: seq<Observation>, threshold: real, timeout: nat)
    requires threshold > 0.0
    ensures var f, streak := FeedbackRun(obs, threshold, timeout), MismatchStreak(obs, threshold);
            f.mismatchTicks == streak && (f.alarm <==> streak >= 1 && streak >= timeout)
  {
    if obs != [] {
      AlarmIffEnoughMismatches(obs[..|obs| - 1], threshold, timeout);
    }
  }

  // ----- heading plausibility -----

  datatype Verdict = Accepted(value: real) | Glitch(prev: real) | SensorFailure

  datatype Plausibility = Plausibility(prev: Option<real>, glitches: nat)

  predicate Plausible(prev: real, value: real, maxRate: real, dt: real) {
    Abs(NormalizeAngle(value - prev)) <= maxRate * Max(dt, 0.0)
  }

  function Check(p: Plausibility, value: real, maxRate: real, dt: real, limit: nat): (Plausibility, Verdict) {
    if p.prev.None? || Plausible(p.prev.value, value, maxRate, dt)
    then (Plausibility(Some(value), 0), Accepted(value))
    else
      (Plausibility(p.prev, p.glitches + 1),
       if p.glitches + 1 >= limit then SensorFailure else Glitch(p.prev.value))
  }

  class HeadingPlausibility {
    var prevValue: Option<real>
    var glitchCount: nat
    const maxConsecutiveGlitches: nat

    ghost function State(): Plausibility
      reads this
    {
      Plausibility(prevValue, glitchCount)
    }

    constructor (maxConsecutiveGlitches: nat)
      ensures State() == Plausibility(None, 0) && this.maxConsecutiveGlitches == maxConsecutiveGlitches
    {
      prevValue, glitchCount := None, 0;
      this.maxConsecutiveGlitches := maxConsecutiveGlitches;
    }

    method CheckHeading(value: real, maxRate: real, dt: real) returns (verdict: Verdict)
      modifies this
      ensures (State(), verdict) == Check(old(State()), value, maxRate, dt, maxConsecutiveGlitches)
    {
      if prevValue.None? {
        prevValue := Some(value);
        glitchCount := 0;
        return Accepted(value);
      }
      var prev := prevValue.value;
      var delta := NormalizeByLoop(value - prev);
      var maxDelta := maxRate * Max(dt, 0.0);
      if Abs(delta) <= maxDelta {
        prevValue := Some(value);
        glitchCount := 0;
        verdict := Accepted(value);
      } else {
        glitchCount := glitchCount + 1;
        verdict := if glitchCount >= maxConsecutiveGlitches then SensorFailure else Glitch(prev);
      }
    }

    method Reset()
      modifies this
      ensures State() == Plausibility(None, 0)
    {
      prevValue, glitchCount := None, 0;
    }
  }

  /** One tick's heading sample and time step. */
  type Sample = (real, real)

  function CheckRun(samples: seq<Sample>, maxRate: real, limit: nat): Plausibility {
    if samples == [] then Plausibility(None, 0)
    else
      var (value, dt) := samples[|samples| - 1];
      Check(CheckRun(samples[..|samples| - 1], maxRate, limit), value, maxRate, dt, limit).0
  }

  function VerdictOf(samples: seq<Sample>, maxRate: real, limit: nat): Verdict
    requires samples != []
  {
    var (value, dt) := samples[|samples| - 1];
    Check(CheckRun(samples[..|samples| - 1], maxRate, limit), value, maxRate, dt, limit).1
  }

  /** The heading passed on, held during a glitch; none at a failure. */
  function PassedOn(v: Verdict): Option<real> {
    match v
    case Accepted(value) => Some(value)
    case Glitch(prev) => Some(prev)
    case SensorFailure => None
  }

  /** Samples rejected since the last accepted one. */
  function RejectStreak(samples: seq<Sample>, maxRate: real, limit: nat): nat {
    if samples == [] || VerdictOf(samples, maxRate, limit).Accepted? then 0
    else RejectStreak(samples[..|samples| - 1], maxRate, limit) + 1
  }

  /** Two headings differ by at most `bound`, up to whole turns. */
  ghost predicate WithinTurn(a: real, b: real, bound: real) {
    exists d :: Congruent(b - a, d) && Abs(d) <= bound
  }

  /** Failure is reported exactly when the samples rejected in a row reach the limit. */
  lemma {:induction false} FailureIffLimitReached(samples: seq<Sample>, maxRate: real, limit: nat)
    ensures CheckRun(samples, maxRate, limit).glitches == RejectStreak(samples, maxRate, limit)
    ensures samples != [] ==>
      var v, streak := VerdictOf(samples, maxRate, limit), RejectStreak(samples, maxRate, limit);
      v == SensorFailure <==> streak > 0 && streak >= limit
  {
    if samples != [] {
      FailureIffLimitReached(samples[..|samples| - 1], maxRate, limit);
    }
  }

  lemma CheckMovesSlowly(p: Plausibility, value: real, maxRate: real, dt: real, limit: nat)
    requires p.prev.Some? && maxRate >= 0.0
    ensures var v := Check(p, value, maxRate, dt, limit).1;
            PassedOn(v).Some? ==> WithinTurn(p.prev.value, PassedOn(v).value, maxRate * Max(dt, 0.0))
  {
    var v, prev, bound := Check(p, value, maxRate, dt, limit).1, p.prev.value, maxRate * Max(dt, 0.0);
    match v
    case Accepted(_) =>
      NormalizeAngleWraps(value - prev);
      assert Congruent(value - prev, NormalizeAngle(value - prev));
    case Glitch(held) =>
      assert held - prev == 0.0 + Turns(0);
      assert Congruent(held - prev, 0.0) && Abs(0.0) <= bound;
    case SensorFailure =>
  }

  /** Main result: between two ticks that pass a heading on, it moves by at most the
      plausible rate times the time step, modulo whole turns. */
  lemma PassedOnHeadingIsSlow(earlier: seq<Sample>, value: real, dt: real, maxRate: real, limit: nat)
    requires earlier != [] && maxRate >= 0.0
    ensures var before, now := VerdictOf(earlier, maxRate, limit), VerdictOf(earlier + [(value, dt)], maxRate, limit);
            PassedOn(before).Some? && PassedOn(now).Some? ==>
              WithinTurn(PassedOn(before).value, PassedOn(now).value, maxRate * Max(dt, 0.0))
  {
    var p := CheckRun(earlier, maxRate, limit);
    assert (earlier + [(value, dt)])[..|earlier|] == earlier;
    if PassedOn(VerdictOf(earlier, maxRate, limit)).Some? {
      PassedOnIsKept(earlier, maxRate, limit);
      CheckMovesSlowly(p, value, maxRate, dt, limit);
    }
  }

  lemma PassedOnIsKept(samples: seq<Sample>, maxRate: real, limit: nat)
    requires samples != [] && PassedOn(VerdictOf(samples, maxRate, limit)).Some?
    ensures CheckRun(samples, maxRate, limit).prev == PassedOn(VerdictOf(samples, maxRate, limit))
  {}

  // ----- yaw rate, rate limiting -----

  function ValidateYawRate(rate: Option<real>, maxRate: real): Option<real> {
    if rate.None? || Abs(rate.value) > maxRate then None else rate
  }

  function RateLimit(current: real, target: real, maxRate: real, dt: real): real {
    if maxRate <= 0.0 || dt <= 0.0 then target
    else
      assert maxRate * dt >= 0.0;
      current + Clamp(target - current, -(maxRate * dt), maxRate * dt)
  }

  /** The limited rudder lies between the current and the wanted one, within the step. */
  lemma RateLimitBounds(current: real, target: real, maxRate: real, dt: real)
    ensures var r := RateLimit(current, target, maxRate, dt);
            && Min(current, target) <= r <= Max(current, target)
            && (maxRate > 0.0 && dt > 0.0 ==> Abs(r - current) <= maxRate * dt)
            && (r == target <==> maxRate <= 0.0 || dt <= 0.0 || Abs(target - current) <= maxRate * dt)
  {
    if maxRate > 0.0 && dt > 0.0 {
      assert maxRate * dt > 0.0;
    }
  }
}
