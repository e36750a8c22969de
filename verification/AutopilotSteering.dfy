/** How a pass of the autopilot's control loop answers what its sensors show
    (crates/plugins/autopilot/src/lib.rs, modes/heading.rs, pd.rs, state.rs). */
module AutopilotSteering {
  import opened Basics
  import opened Angles
  import opened AutopilotControl
  import opened AutopilotFilter
  import opened AutopilotProvider
  import opened AutopilotLoop
  import opened AutopilotDecisions

  // ----- the turn damps the rudder -----

  lemma LimitKeepsOrder(last: real, a: real, b: real, maxRate: real, dt: real)
    requires a <= b
    ensures RateLimit(last, a, maxRate, dt) <= RateLimit(last, b, maxRate, dt)
  {
    if maxRate > 0.0 && dt > 0.0 {
      NonNegative(maxRate, dt);
    }
  }

  lemma NonNegative(x: real, y: real)
    requires x >= 0.0 && y >= 0.0
    ensures x * y >= 0.0
  {}

  lemma CommandKeepsOrder(cfg: Config, last: real, a: real, b: real, dt: real)
    requires ValidConfig(cfg) && a <= b
    ensures Command(cfg, last, a, dt) <= Command(cfg, last, b, dt)
  {
    var max := cfg.gains.maxRudder;
    LimitKeepsOrder(last, Clamp(a, -max, max), Clamp(b, -max, max), cfg.maxRudderRate, dt);
  }

  lemma QuotientNonNegative(x: real, y: real)
    requires x >= 0.0 && y > 0.0
    ensures x / y >= 0.0
  {}

  lemma ScaledDerivative(cfg: PidConfig, speed: real, nominal: real)
    requires cfg.gainD >= 0.0
    ensures ScaleGains(cfg, speed, nominal).gainD >= 0.0
  {
    if nominal > 0.0 && speed > 0.0 {
      QuotientNonNegative(cfg.gainD, Clamp(speed / nominal, 0.3, 3.0));
    }
  }

  /** Gain scheduling, sensor quality and recovery never turn the derivative gain negative. */
  lemma DerivativeGainStays(cfg: Config, m: Maths, l: Local, snap: Snapshot, heading: Option<real>)
    requires cfg.gains.gainD >= 0.0 && cfg.recoveryGainFactor >= 0.0
    ensures Adapt(cfg, m, l, snap, heading).1.gainD >= 0.0
  {
    var scaled := if snap.speed.Some? then ScaleGains(cfg.gains, snap.speed.value, cfg.speedNominal) else cfg.gains;
    if snap.speed.Some? {
      ScaledDerivative(cfg.gains, snap.speed.value, cfg.speedNominal);
    }
    if cfg.qualityHalfLife > 0.0 {
      NonNegative(scaled.gainD, SensorQuality(snap.headingAge, cfg.qualityHalfLife, m));
    }
    NonNegative(Gains(cfg, snap, m).gainD, cfg.recoveryGainFactor);
  }

  /** A rate of turn the loop believes. */
  predicate Believed(cfg: Config, rate: real) {
    Abs(rate) <= cfg.maxYawRate
  }

  /** Two outcomes that differ in the rudder at most, which is no larger in the second. */
  predicate NoLarger(o: Outcome, o': Outcome) {
    if o.Steer? then o'.Steer? && o'.error == o.error && o'.at == o.at && o'.dt == o.dt && o'.rudder <= o.rudder else o' == o
  }

  lemma HoldDamps(cfg: Config, l: Local, error: real, prevError: real, rate: real, rate': real, dt: real, gains: PidConfig)
    requires ValidConfig(cfg) && 0.0 <= gains.maxRudder && dt != 0.0 && gains.gainD >= 0.0 && rate <= rate'
    ensures var (a, b) := (Hold(cfg, l, error, prevError, Some(rate), dt, gains), Hold(cfg, l, error, prevError, Some(rate'), dt, gains));
            && a.command.Some? && b.command.Some? && b.command.value.1 == a.command.value.1 == error
            && b.command.value.0 <= a.command.value.0
            && b.local == a.local.(integral := b.local.integral)
  {
    DerivativeDamps(l.integral, cfg.integralLimit, error, -rate', -rate, dt, gains);
  }

  /** The dispatched commands of two rates of turn. */
  predicate Damped(a: Dispatched, b: Dispatched) {
    && b.local == a.local.(integral := b.local.integral)
    && if a.command.None? then b.command.None?
       else b.command.Some? && b.command.value.1 == a.command.value.1 && b.command.value.0 <= a.command.value.0
  }

  /** The same pass, at another rate of turn. */
  function TurningAt(snap: Snapshot, rate: real): Snapshot {
    snap.(yawRate := Some(rate))
  }

  /** Both rates of turn are believed, and the second is no smaller. */
  predicate TurnsFaster(cfg: Config, snap: Snapshot, rate: real) {
    snap.yawRate.Some? && snap.yawRate.value <= rate && Believed(cfg, snap.yawRate.value) && Believed(cfg, rate)
  }

  lemma DispatchIsHold(cfg: Config, m: Maths, l: Local, snap: Snapshot, heading: Option<real>, dt: real, gains: PidConfig)
    requires ValidConfig(cfg) && 0.0 <= gains.maxRudder && dt != 0.0 && (heading.Some? <==> snap.heading.Some?)
    requires snap.yawRate.Some? && Believed(cfg, snap.yawRate.value)
    ensures Dispatch(cfg, m, l, snap, heading, dt, gains)
         == if !InputsPresent(snap) then Dispatched(l, None)
            else Hold(cfg, if IsWindMode(snap.mode) then FilterWind(cfg, l, snap.primary.value, m).0 else l,
                      NormalizeAngle(Wanted(cfg, m, snap) - Held(cfg, m, l, snap, heading)), snap.prevError, snap.yawRate, dt, gains)
  {}

  lemma AimIgnoresTurn(cfg: Config, m: Maths, l: Local, snap: Snapshot, heading: Option<real>, rate: real)
    requires InputsPresent(snap) && (heading.Some? <==> snap.heading.Some?)
    ensures Wanted(cfg, m, TurningAt(snap, rate)) == Wanted(cfg, m, snap)
    ensures Held(cfg, m, l, TurningAt(snap, rate), heading) == Held(cfg, m, l, snap, heading)
  {}

  lemma DispatchDamps(cfg: Config, m: Maths, l: Local, snap: Snapshot, heading: Option<real>, dt: real, gains: PidConfig, rate: real)
    requires ValidConfig(cfg) && 0.0 <= gains.maxRudder && dt != 0.0 && gains.gainD >= 0.0 && TurnsFaster(cfg, snap, rate)
    requires heading.Some? <==> snap.heading.Some?
    ensures Damped(Dispatch(cfg, m, l, snap, heading, dt, gains), Dispatch(cfg, m, l, TurningAt(snap, rate), heading, dt, gains))
  {
    DispatchIsHold(cfg, m, l, snap, heading, dt, gains);
    DispatchIsHold(cfg, m, l, TurningAt(snap, rate), heading, dt, gains);
    if InputsPresent(snap) {
      AimIgnoresTurn(cfg, m, l, snap, heading, rate);
      var ready := if IsWindMode(snap.mode) then FilterWind(cfg, l, snap.primary.value, m).0 else l;
      var error := NormalizeAngle(Wanted(cfg, m, snap) - Held(cfg, m, l, snap, heading));
      HoldDamps(cfg, ready, error, snap.prevError, snap.yawRate.value, rate, dt, gains);
    }
  }

  /** From the dispatched command to the outcome. */
  function Finished(cfg: Config, snap: Snapshot, d: Dispatched, now: int, dt: real): Outcome
    requires ValidConfig(cfg)
  {
    if d.command.None? then Skip
    else Steer(Command(cfg, snap.lastRudder, d.command.value.0 + Feedforward(cfg, d.local, snap, dt).1, dt), d.command.value.1, now, dt)
  }

  lemma SteeringIsFinished(cfg: Config, m: Maths, l: Local, snap: Snapshot, heading: Option<real>, now: int, dt: real)
    requires ValidConfig(cfg) && dt != 0.0
    ensures var (adapted, gains) := Adapt(cfg, m, l, snap, heading);
            SteerWith(cfg, m, l, snap, heading, now, dt).1 == Finished(cfg, snap, Dispatch(cfg, m, adapted, snap, heading, dt, gains), now, dt)
  {}

  lemma FinishingDamps(cfg: Config, snap: Snapshot, a: Dispatched, b: Dispatched, now: int, dt: real, rate: real)
    requires ValidConfig(cfg) && Damped(a, b)
    ensures NoLarger(Finished(cfg, snap, a, now, dt), Finished(cfg, TurningAt(snap, rate), b, now, dt))
  {
    if a.command.Some? {
      var extra := Feedforward(cfg, a.local, snap, dt).1;
      assert Feedforward(cfg, b.local, TurningAt(snap, rate), dt).1 == extra;
      CommandKeepsOrder(cfg, snap.lastRudder, b.command.value.0 + extra, a.command.value.0 + extra, dt);
    }
  }

  /** The two agree on all that decides on the gains and on the aim. */
  predicate SameAim(a: Snapshot, b: Snapshot) {
    && a.mode == b.mode && a.target == b.target && a.dodge == b.dodge && a.primary == b.primary && a.xte == b.xte
    && a.speed == b.speed && a.headingAge == b.headingAge && a.prevError == b.prevError
  }

  lemma SameRecoveryError(a: Snapshot, b: Snapshot, heading: Option<real>)
    requires SameAim(a, b)
    ensures RecoveryError(a, heading) == RecoveryError(b, heading)
  {}

  lemma SameGains(cfg: Config, m: Maths, a: Snapshot, b: Snapshot)
    requires SameAim(a, b)
    ensures Gains(cfg, a, m) == Gains(cfg, b, m)
  {}

  lemma SameAdapted(cfg: Config, m: Maths, l: Local, a: Snapshot, b: Snapshot, heading: Option<real>)
    requires RecoveryError(a, heading) == RecoveryError(b, heading) && Gains(cfg, a, m) == Gains(cfg, b, m)
    ensures Adapt(cfg, m, l, a, heading) == Adapt(cfg, m, l, b, heading)
  {}

  lemma AdaptsAlike(cfg: Config, m: Maths, l: Local, a: Snapshot, b: Snapshot, heading: Option<real>)
    requires SameAim(a, b)
    ensures Adapt(cfg, m, l, a, heading) == Adapt(cfg, m, l, b, heading)
  {
    SameRecoveryError(a, b, heading);
    SameGains(cfg, m, a, b);
    SameAdapted(cfg, m, l, a, b, heading);
  }

  lemma DispatchesAlike(cfg: Config, m: Maths, l: Local, a: Snapshot, b: Snapshot, heading: Option<real>, dt: real, gains: PidConfig)
    requires ValidConfig(cfg) && 0.0 <= gains.maxRudder && dt != 0.0 && SameAim(a, b)
    requires ValidateYawRate(a.yawRate, cfg.maxYawRate) == ValidateYawRate(b.yawRate, cfg.maxYawRate)
    ensures Dispatch(cfg, m, l, a, heading, dt, gains) == Dispatch(cfg, m, l, b, heading, dt, gains)
  {}

  lemma SteerDamps(cfg: Config, m: Maths, l: Local, snap: Snapshot, heading: Option<real>, now: int, dt: real, rate: real)
    requires ValidConfig(cfg) && dt != 0.0 && cfg.gains.gainD >= 0.0 && cfg.recoveryGainFactor >= 0.0 && TurnsFaster(cfg, snap, rate)
    requires heading.Some? <==> snap.heading.Some?
    ensures NoLarger(SteerWith(cfg, m, l, snap, heading, now, dt).1, SteerWith(cfg, m, l, TurningAt(snap, rate), heading, now, dt).1)
  {
    var faster := TurningAt(snap, rate);
    var (adapted, gains) := Adapt(cfg, m, l, snap, heading);
    AdaptsAlike(cfg, m, l, snap, faster, heading);
    DerivativeGainStays(cfg, m, l, snap, heading);
    DispatchDamps(cfg, m, adapted, snap, heading, dt, gains, rate);
    SteeringIsFinished(cfg, m, l, snap, heading, now, dt);
    SteeringIsFinished(cfg, m, l, faster, heading, now, dt);
    FinishingDamps(cfg, snap, Dispatch(cfg, m, adapted, snap, heading, dt, gains), Dispatch(cfg, m, adapted, faster, heading, dt, gains),
                   now, dt, rate);
  }

  /** Main result: in every mode, through gain scheduling, anti-windup, feedforward, clamp
      and rate limit, a pass that believes a larger rate of turn never commands a larger
      rudder, all else equal: a turn towards the target takes rudder off. */
  lemma FasterTurnTakesRudderOff(cfg: Config, m: Maths, l: Local, snap: Snapshot, now: int, rate: real)
    requires ValidConfig(cfg) && cfg.gains.gainD >= 0.0 && cfg.recoveryGainFactor >= 0.0 && TurnsFaster(cfg, snap, rate)
    ensures NoLarger(Decide(cfg, m, l, snap, now).1, Decide(cfg, m, l, TurningAt(snap, rate), now).1)
  {
    var ready, dt := OnMode(l, snap.mode), TimeStep(cfg, snap.lastTick, now);
    if snap.heading.None? {
      SteerDamps(cfg, m, ready, snap, None, now, dt, rate);
    } else {
      var (checked, verdict) := Check(ready.plausibility, snap.heading.value, cfg.maxHeadingRate, dt, cfg.glitchLimit);
      if !verdict.SensorFailure? {
        SteerDamps(cfg, m, ready.(plausibility := checked), snap, PassedOn(verdict), now, dt, rate);
      }
    }
  }

  /** A rate of turn beyond the believable is no rate of turn: then the change of the error
      takes its place. */
  lemma UnbelievedTurnIsIgnored(cfg: Config, m: Maths, l: Local, snap: Snapshot, now: int)
    requires ValidConfig(cfg) && snap.yawRate.Some? && !Believed(cfg, snap.yawRate.value)
    ensures Decide(cfg, m, l, snap, now).1 == Decide(cfg, m, l, snap.(yawRate := None), now).1
  {
    var none := snap.(yawRate := None);
    forall ready: Local, heading: Option<real>, dt: real | dt != 0.0
      ensures SteerWith(cfg, m, ready, snap, heading, now, dt).1 == SteerWith(cfg, m, ready, none, heading, now, dt).1 {
      UnbelievedIsIgnored(cfg, m, ready, snap, heading, now, dt);
    }
  }

  lemma UnbelievedIsIgnored(cfg: Config, m: Maths, l: Local, snap: Snapshot, heading: Option<real>, now: int, dt: real)
    requires ValidConfig(cfg) && dt != 0.0 && snap.yawRate.Some? && !Believed(cfg, snap.yawRate.value)
    ensures SteerWith(cfg, m, l, snap, heading, now, dt).1 == SteerWith(cfg, m, l, snap.(yawRate := None), heading, now, dt).1
  {
    var none := snap.(yawRate := None);
    AdaptsAlike(cfg, m, l, snap, none, heading);
    var (adapted, gains) := Adapt(cfg, m, l, snap, heading);
    DispatchesAlike(cfg, m, adapted, snap, none, heading, dt, gains);
    SteeringIsFinished(cfg, m, l, snap, heading, now, dt);
    SteeringIsFinished(cfg, m, l, none, heading, now, dt);
    FinishesAlike(cfg, snap, none, Dispatch(cfg, m, adapted, snap, heading, dt, gains), now, dt);
  }

  lemma FinishesAlike(cfg: Config, a: Snapshot, b: Snapshot, d: Dispatched, now: int, dt: real)
    requires ValidConfig(cfg) && a.lastRudder == b.lastRudder && a.heel == b.heel && a.windSpeed == b.windSpeed
    ensures Finished(cfg, a, d, now, dt) == Finished(cfg, b, d, now, dt)
  {}

  // ----- heel and gusts -----

  lemma QuotientOrder(x: real, y: real, dt: real)
    requires dt > 0.0 && x <= y
    ensures x / dt <= y / dt
  {}

  lemma FactorOrder(gain: real, x: real, y: real)
    ensures gain > 0.0 && gain * x >= gain * y ==> x >= y
    ensures gain < 0.0 && gain * x >= gain * y ==> x <= y
    ensures gain >= 0.0 && x >= y ==> gain * x >= gain * y
    ensures gain <= 0.0 && x <= y ==> gain * x >= gain * y
    ensures gain * 0.0 == 0.0
  {
    if gain > 0.0 && x < y {
      assert gain * (y - x) > 0.0;
    } else if gain < 0.0 && x > y {
      assert gain * (y - x) > 0.0;
    }
  }

  lemma RateOrder(prev: Option<real>, rate: Option<real>, wind: real, wind': real, dt: real)
    requires wind <= wind'
    ensures LowPassStep(0.5, rate, RawRate(prev, wind, dt)) <= LowPassStep(0.5, rate, RawRate(prev, wind', dt))
  {
    if prev.Some? && dt > 0.0 {
      QuotientOrder(wind - prev.value, wind' - prev.value, dt);
    }
  }

  /** `ga` and `gb` are `a` and `b` times a gain, not negative if `up` and else not positive. */
  predicate Rising(up: bool, a: real, b: real, ga: real, gb: real) {
    && ga >= gb
    && (up ==> a >= b && (a >= 0.0 ==> ga >= 0.0) && (b <= 0.0 ==> gb <= 0.0))
    && (!up ==> a <= b && (a <= 0.0 ==> ga >= 0.0) && (b >= 0.0 ==> gb <= 0.0))
  }

  lemma BandKeepsOrder(up: bool, a: real, b: real, ga: real, gb: real, threshold: real)
    requires Rising(up, a, b, ga, gb)
    ensures (if Abs(a) > threshold then ga else 0.0) >= (if Abs(b) > threshold then gb else 0.0)
  {}

  lemma ProductRises(gain: real, a: real, b: real)
    requires if gain >= 0.0 then a >= b else a <= b
    ensures Rising(gain >= 0.0, a, b, gain * a, gain * b)
  {
    if gain >= 0.0 {
      LargerTerm(gain, b, a);
      LargerTerm(gain, if a >= 0.0 then 0.0 else a, if a >= 0.0 then a else 0.0);
      LargerTerm(gain, if b >= 0.0 then 0.0 else b, if b >= 0.0 then b else 0.0);
    } else {
      LargerTerm(-gain, a, b);
      LargerTerm(-gain, if a >= 0.0 then 0.0 else a, if a >= 0.0 then a else 0.0);
      LargerTerm(-gain, if b >= 0.0 then 0.0 else b, if b >= 0.0 then b else 0.0);
      NegatedGain(gain, a);
      NegatedGain(gain, b);
    }
  }

  lemma NegatedGain(gain: real, x: real)
    ensures (-gain) * x == -(gain * x)
  {}

  lemma GustOrder(cfg: Config, a: real, b: real)
    requires if cfg.gustGain >= 0.0 then a >= b else a <= b
    ensures GustTerm(cfg, a) >= GustTerm(cfg, b)
  {
    ProductRises(cfg.gustGain, a, b);
    BandKeepsOrder(cfg.gustGain >= 0.0, a, b, cfg.gustGain * a, cfg.gustGain * b, cfg.gustThreshold);
  }

  /** The same pass, heeling and blown differently. */
  function BlownBy(snap: Snapshot, heel: real, wind: real): Snapshot {
    snap.(heel := Some(heel), windSpeed := Some(wind))
  }

  /** The heel and the wind each ask for no more rudder. */
  predicate AsksNoMore(cfg: Config, snap: Snapshot, heel: real, wind: real) {
    && snap.heel.Some? && cfg.heelGain * snap.heel.value >= cfg.heelGain * heel
    && snap.windSpeed.Some? && cfg.gustGain * snap.windSpeed.value >= cfg.gustGain * wind
  }

  lemma GustsInOrder(cfg: Config, l: Local, w: real, w': real, dt: real)
    requires cfg.gustGain != 0.0 && cfg.gustGain * w >= cfg.gustGain * w'
    ensures GustTerm(cfg, LowPassStep(0.5, l.gustRate, RawRate(l.gustPrev, w, dt)))
         >= GustTerm(cfg, LowPassStep(0.5, l.gustRate, RawRate(l.gustPrev, w', dt)))
  {
    FactorOrder(cfg.gustGain, w, w');
    if cfg.gustGain > 0.0 {
      RateOrder(l.gustPrev, l.gustRate, w', w, dt);
    } else {
      RateOrder(l.gustPrev, l.gustRate, w, w', dt);
    }
    GustOrder(cfg, LowPassStep(0.5, l.gustRate, RawRate(l.gustPrev, w, dt)), LowPassStep(0.5, l.gustRate, RawRate(l.gustPrev, w', dt)));
  }

  function GustPart(cfg: Config, l: Local, wind: real, dt: real): real {
    if cfg.gustGain != 0.0 then GustTerm(cfg, LowPassStep(0.5, l.gustRate, RawRate(l.gustPrev, wind, dt))) else 0.0
  }

  lemma FeedforwardParts(cfg: Config, l: Local, snap: Snapshot, dt: real)
    requires snap.windSpeed.Some?
    ensures Feedforward(cfg, l, snap, dt).1 == HeelTerm(cfg, snap) + GustPart(cfg, l, snap.windSpeed.value, dt)
  {}

  lemma HeelOrder(cfg: Config, snap: Snapshot, heel: real, wind: real)
    requires AsksNoMore(cfg, snap, heel, wind)
    ensures HeelTerm(cfg, snap) >= HeelTerm(cfg, BlownBy(snap, heel, wind))
  {}

  lemma GustPartOrder(cfg: Config, l: Local, w: real, w': real, dt: real)
    requires cfg.gustGain * w >= cfg.gustGain * w'
    ensures GustPart(cfg, l, w, dt) >= GustPart(cfg, l, w', dt)
  {
    if cfg.gustGain != 0.0 {
      GustsInOrder(cfg, l, w, w', dt);
    }
  }

  lemma FeedforwardOrder(cfg: Config, l: Local, snap: Snapshot, dt: real, heel: real, wind: real)
    requires AsksNoMore(cfg, snap, heel, wind)
    ensures Feedforward(cfg, l, snap, dt).1 >= Feedforward(cfg, l, BlownBy(snap, heel, wind), dt).1
  {
    FeedforwardParts(cfg, l, snap, dt);
    FeedforwardParts(cfg, l, BlownBy(snap, heel, wind), dt);
    HeelOrder(cfg, snap, heel, wind);
    GustPartOrder(cfg, l, snap.windSpeed.value, wind, dt);
  }

  lemma FinishAnswers(cfg: Config, snap: Snapshot, d: Dispatched, now: int, dt: real, heel: real, wind: real)
    requires ValidConfig(cfg) && AsksNoMore(cfg, snap, heel, wind)
    ensures NoLarger(Finished(cfg, snap, d, now, dt), Finished(cfg, BlownBy(snap, heel, wind), d, now, dt))
  {
    if d.command.Some? {
      var less, more := Feedforward(cfg, d.local, BlownBy(snap, heel, wind), dt).1, Feedforward(cfg, d.local, snap, dt).1;
      FeedforwardOrder(cfg, d.local, snap, dt, heel, wind);
      CommandKeepsOrder(cfg, snap.lastRudder, d.command.value.0 + less, d.command.value.0 + more, dt);
    }
  }

  lemma SteerAnswers(cfg: Config, m: Maths, l: Local, snap: Snapshot, heading: Option<real>, now: int, dt: real, heel: real, wind: real)
    requires ValidConfig(cfg) && dt != 0.0 && AsksNoMore(cfg, snap, heel, wind)
    ensures NoLarger(SteerWith(cfg, m, l, snap, heading, now, dt).1, SteerWith(cfg, m, l, BlownBy(snap, heel, wind), heading, now, dt).1)
  {
    var blown := BlownBy(snap, heel, wind);
    AdaptsAlike(cfg, m, l, snap, blown, heading);
    var (adapted, gains) := Adapt(cfg, m, l, snap, heading);
    DispatchesAlike(cfg, m, adapted, snap, blown, heading, dt, gains);
    SteeringIsFinished(cfg, m, l, snap, heading, now, dt);
    SteeringIsFinished(cfg, m, l, blown, heading, now, dt);
    FinishAnswers(cfg, snap, Dispatch(cfg, m, adapted, snap, heading, dt, gains), now, dt, heel, wind);
  }

  /** Main result: a pass whose heel and wind speed each ask for no more rudder, by the signs
      of their gains, commands no larger one, all else equal. */
  lemma HeelAndGustAnswered(cfg: Config, m: Maths, l: Local, snap: Snapshot, now: int, heel: real, wind: real)
    requires ValidConfig(cfg) && AsksNoMore(cfg, snap, heel, wind)
    ensures NoLarger(Decide(cfg, m, l, snap, now).1, Decide(cfg, m, l, BlownBy(snap, heel, wind), now).1)
  {
    var ready, dt := OnMode(l, snap.mode), TimeStep(cfg, snap.lastTick, now);
    if snap.heading.None? {
      SteerAnswers(cfg, m, ready, snap, None, now, dt, heel, wind);
    } else {
      var (checked, verdict) := Check(ready.plausibility, snap.heading.value, cfg.maxHeadingRate, dt, cfg.glitchLimit);
      SteerAnswers(cfg, m, ready.(plausibility := checked), snap, PassedOn(verdict), now, dt, heel, wind);
    }
  }

  // ----- from the shared state -----

  /** The sensor a mode steers by. */
  function PrimaryOf(s: Shared): string {
    if s.mode == Compass then "navigation.headingMagnetic"
    else if s.mode == Wind then "environment.wind.angleApparent"
    else if s.mode == WindTrue then "environment.wind.angleTrue"
    else "navigation.course.calcValues.bearingTrackTrue"
  }

  /** The sensor was never heard, or last heard so long ago. */
  predicate Silent(s: Shared, timeoutSecs: nat, now: int) {
    PrimaryOf(s) !in s.seen || now - s.seen[PrimaryOf(s)] >= (timeoutSecs + 1) * 1_000_000_000
  }

  predicate HasHeading(s: Shared) {
    "navigation.headingMagnetic" in s.sensors || "navigation.headingTrue" in s.sensors
  }

  /** The magnetic heading goes first. */
  function HeadingOf(s: Shared): real
    requires HasHeading(s)
  {
    if "navigation.headingMagnetic" in s.sensors then s.sensors["navigation.headingMagnetic"] else s.sensors["navigation.headingTrue"]
  }

  predicate SensorsPresent(s: Shared) {
    match s.mode
    case Compass => HasHeading(s)
    case Route => HasHeading(s) && PrimaryOf(s) in s.sensors
    case _ => PrimaryOf(s) in s.sensors
  }

  lemma SilentIsTimedOut(s: Shared, timeoutSecs: nat, now: int)
    ensures TimedOut(s, timeoutSecs, now) <==> Silent(s, timeoutSecs, now)
  {}

  /** Main result: woken at `now`, the loop decides from the shared state to disengage on a
      silent sensor exactly if the mode's own was never heard or is at least a second more
      than the limit old, and to steer exactly if switched on, with target and sensors. */
  lemma WokenLoopDecidesIff(cfg: Config, m: Maths, l: Local, s: Shared, woken: int, now: int)
    requires ValidConfig(cfg)
    ensures var (local, phase) := Wake(cfg, l, s, woken);
            var o := Decide(cfg, m, local, phase.snap, now).1;
            var active := s.enabled && !Silent(s, cfg.sensorTimeoutSecs, woken) && s.target.Some?;
            && phase.Holding? && local == l.(ticks := l.ticks + 1)
            && (o == Stop(SensorTimeout) <==> s.enabled && Silent(s, cfg.sensorTimeoutSecs, woken))
            && (o == Stop(HeadingFailure) <==> active && HasHeading(s) && HeadingRejected(cfg, l, s, now))
            && (o.Steer? <==> active && !(HasHeading(s) && HeadingRejected(cfg, l, s, now)) && SensorsPresent(s))
  {
    SilentIsTimedOut(s, cfg.sensorTimeoutSecs, woken);
    var (local, phase) := Wake(cfg, l, s, woken);
    OutcomeIff(cfg, m, local, phase.snap, now);
  }

  /** The heading is one rejection too many for the monitor, which a new mode resets. */
  predicate HeadingRejected(cfg: Config, l: Local, s: Shared, now: int)
    requires ValidConfig(cfg) && HasHeading(s)
  {
    && l.prevMode == Some(s.mode)
    && RejectedTooOften(l.plausibility, HeadingOf(s), cfg.maxHeadingRate, TimeStep(cfg, s.lastTick, now), cfg.glitchLimit)
  }
}
