/** The autopilot's control loop, cut at its lock operations and its emissions
    (crates/plugins/autopilot/src/lib.rs, modes/heading.rs, modes/route.rs). Each step
    is a method of `ControlLoop`, specified by a function on values; the functions
    make up the state machine whose runs are studied in AutopilotRuns. */
module AutopilotLoop {
  import opened Basics
  import opened AutopilotControl
  import opened AutopilotFilter
  import opened AutopilotProvider

  datatype Config = Config(
    gains: PidConfig,
    integralLimit: real,
    speedNominal: real,
    heelGain: real,
    maxRudderRate: real,
    controlRate: real,
    outputRate: real,
    sensorTimeoutSecs: nat,
    recoveryThreshold: real,
    recoveryMaxTicks: nat,
    recoveryGainFactor: real,
    gustGain: real,
    gustThreshold: real,
    routeLookahead: real,
    windFilterAlpha: real,
    feedbackThreshold: real,
    feedbackTimeoutTicks: nat,
    maxHeadingRate: real,
    maxYawRate: real,
    glitchLimit: nat,
    qualityHalfLife: real)

  /** Outside the first three bounds the source panics; a control rate of exactly zero
      gives it an infinite time step. Negative rates are allowed, and run. */
  predicate ValidConfig(cfg: Config) {
    0.0 <= cfg.integralLimit && 0.0 <= cfg.gains.maxRudder && ValidAlpha(cfg.windFilterAlpha) && cfg.controlRate != 0.0
  }

  /** The transcendental functions used by the loop. */
  datatype Maths = Maths(sin: real -> real, cos: real -> real, atan: real -> real, atan2: (real, real) -> real, exp2: real -> real)

  /** Ticks per emission: the rates' quotient rounded half up, at least one. */
  function OutputEvery(cfg: Config): nat {
    var n := (cfg.controlRate / Max(cfg.outputRate, 0.1) + 0.5).Floor;
    if n < 1 then 1 else n
  }

  // ----- snapshot -----

  datatype Snapshot = Snapshot(
    enabled: bool,
    mode: Mode,
    target: Option<real>,
    dodge: Option<real>,
    primary: Option<real>,
    timedOut: bool,
    prevError: real,
    lastTick: Option<int>,
    lastRudder: real,
    heading: Option<real>,
    xte: Option<real>,
    yawRate: Option<real>,
    speed: Option<real>,
    heel: Option<real>,
    windSpeed: Option<real>,
    actualRudder: Option<real>,
    headingAge: Option<real>)

  function OrElse<T>(x: Option<T>, y: Option<T>): Option<T> {
    if x.Some? then x else y
  }

  function Seconds(since: int, now: int): real {
    if now < since then 0.0 else (now - since) as real / SECOND as real
  }

  function TakeSnapshot(cfg: Config, s: Shared, now: int): Snapshot {
    var seen := OrElse(Get(s.seen, HEADING_MAGNETIC), Get(s.seen, HEADING_TRUE));
    Snapshot(
      s.enabled, s.mode, s.target, s.dodge,
      Get(s.sensors, SensorPath(s.mode)),
      TimedOut(s, cfg.sensorTimeoutSecs, now),
      s.lastError, s.lastTick, s.lastRudder,
      OrElse(Get(s.sensors, HEADING_MAGNETIC), Get(s.sensors, HEADING_TRUE)),
      Get(s.sensors, "navigation.crossTrackError"),
      Get(s.sensors, "navigation.rateOfTurn"),
      OrElse(Get(s.sensors, "navigation.speedThroughWater"), Get(s.sensors, "navigation.speedOverGround")),
      Get(s.sensors, "navigation.attitude.roll"),
      Get(s.sensors, "environment.wind.speedApparent"),
      s.actualRudder,
      if seen.None? then None else Some(Seconds(seen.value, now)))
  }

  // ----- the computation between reading and writing back -----

  /** The loop's own variables. */
  datatype Local = Local(
    integral: real,
    wind: (Option<real>, Option<real>),
    recovery: Recovery,
    gustPrev: Option<real>,
    gustRate: Option<real>,
    feedback: Feedback,
    plausibility: Plausibility,
    prevMode: Option<Mode>,
    ticks: nat)

  const FreshLocal := Local(0.0, (None, None), Recovery(false, 0), None, None, Feedback(0, false), Plausibility(None, 0), None, 0)

  datatype Cause = SensorTimeout | HeadingFailure

  datatype Outcome =
    | Skip
    | Stop(cause: Cause)
    | Steer(rudder: real, error: real, at: int, dt: real)

  /** A change of mode resets every controller and filter. */
  function OnMode(l: Local, mode: Mode): Local {
    if l.prevMode == Some(mode) then l else FreshLocal.(prevMode := Some(mode), ticks := l.ticks)
  }

  /** Disengaging itself resets all but the wind filter and the gust detector. */
  function Stopped(l: Local): Local {
    l.(integral := 0.0, recovery := Recovery(false, 0), feedback := Feedback(0, false), plausibility := Plausibility(None, 0))
  }

  function TimeStep(cfg: Config, last: Option<int>, now: int): real
    requires cfg.controlRate != 0.0
  {
    if last.Some? then Max(Seconds(last.value, now), 0.001) else 1.0 / cfg.controlRate
  }

  /** D-term quality; `None` stands for the infinite age of a missing heading. */
  function SensorQuality(age: Option<real>, halfLife: real, m: Maths): real
    requires 0.0 < halfLife
  {
    if age.None? then 0.0
    else if age.value < 0.0 then 1.0
    else Clamp(m.exp2(-age.value / halfLife), 0.0, 1.0)
  }

  function Gains(cfg: Config, snap: Snapshot, m: Maths): (g: PidConfig)
    ensures g.maxRudder == cfg.gains.maxRudder
  {
    var scaled := if snap.speed.Some? then ScaleGains(cfg.gains, snap.speed.value, cfg.speedNominal) else cfg.gains;
    if cfg.qualityHalfLife > 0.0
    then scaled.(gainD := scaled.gainD * SensorQuality(snap.headingAge, cfg.qualityHalfLife, m))
    else scaled
  }

  function EffectiveTarget(snap: Snapshot): real {
    OrZero(snap.target) + OrZero(snap.dodge)
  }

  /** The deviation that decides on recovery mode. */
  function RecoveryError(snap: Snapshot, heading: Option<real>): Option<real> {
    var input := if snap.mode == Compass then heading else snap.primary;
    if input.None? then None else Some(NormalizeAngle(EffectiveTarget(snap) - input.value))
  }

  /** Derivative input: the negated yaw rate, or else a finite difference. */
  function DError(error: real, prevError: real, yawRate: Option<real>, dt: real): real
    requires dt != 0.0
  {
    if yawRate.Some? then -yawRate.value else NormalizeAngle(error - prevError) / dt
  }

  /** The loop's variables after mode dispatch, with raw rudder and error if any. */
  datatype Dispatched = Dispatched(local: Local, command: Option<(real, real)>)

  function Hold(cfg: Config, l: Local, error: real, prevError: real, yawRate: Option<real>, dt: real, gains: PidConfig): Dispatched
    requires ValidConfig(cfg) && 0.0 <= gains.maxRudder && dt != 0.0
  {
    var (integral, rudder) := PidStep(l.integral, cfg.integralLimit, error, DError(error, prevError, yawRate, dt), dt, gains);
    Dispatched(l.(integral := integral), Some((rudder, error)))
  }

  /** Desired heading of the route mode: bearing plus line-of-sight correction. */
  function DesiredHeading(cfg: Config, btw: real, xte: real, m: Maths): real {
    NormalizeAngle(btw + m.atan(xte / Max(cfg.routeLookahead, 1.0)))
  }

  function FilterWind(cfg: Config, l: Local, raw: real, m: Maths): (Local, real) {
    var s := LowPassStep(cfg.windFilterAlpha, l.wind.0, m.sin(raw));
    var c := LowPassStep(cfg.windFilterAlpha, l.wind.1, m.cos(raw));
    (l.(wind := (Some(s), Some(c))), m.atan2(s, c))
  }

  /** Wind-angle hold on the filtered angle. */
  function HoldWind(cfg: Config, m: Maths, l: Local, snap: Snapshot, yawRate: Option<real>, dt: real, gains: PidConfig): Dispatched
    requires ValidConfig(cfg) && 0.0 <= gains.maxRudder && dt != 0.0
  {
    if snap.primary.None? then Dispatched(l, None)
    else
      var (filtered, current) := FilterWind(cfg, l, snap.primary.value, m);
      Hold(cfg, filtered, NormalizeAngle(EffectiveTarget(snap) - current), snap.prevError, yawRate, dt, gains)
  }

  function Dispatch(cfg: Config, m: Maths, l: Local, snap: Snapshot, heading: Option<real>, dt: real, gains: PidConfig): Dispatched
    requires ValidConfig(cfg) && 0.0 <= gains.maxRudder && dt != 0.0
  {
    var yawRate := ValidateYawRate(snap.yawRate, cfg.maxYawRate);
    match snap.mode
    case Compass =>
      if heading.None? then Dispatched(l, None)
      else Hold(cfg, l, NormalizeAngle(EffectiveTarget(snap) - heading.value), snap.prevError, yawRate, dt, gains)
    case Route =>
      if heading.None? || snap.primary.None? then Dispatched(l, None)
      else Hold(cfg, l, NormalizeAngle(DesiredHeading(cfg, snap.primary.value, OrZero(snap.xte), m) - heading.value),
                snap.prevError, yawRate, dt, gains)
    case _ => HoldWind(cfg, m, l, snap, yawRate, dt, gains)
  }

  /** Heel and gust feedforward; only the gust detector changes. */
  function Feedforward(cfg: Config, l: Local, snap: Snapshot, dt: real): (r: (Local, real))
    ensures r.0.integral == l.integral && r.0.prevMode == l.prevMode && r.0.ticks == l.ticks
  {
    var heel := HeelTerm(cfg, snap);
    if snap.windSpeed.Some? && cfg.gustGain != 0.0 then
      var rate := LowPassStep(0.5, l.gustRate, RawRate(l.gustPrev, snap.windSpeed.value, dt));
      (l.(gustPrev := Some(snap.windSpeed.value), gustRate := Some(rate)),
       heel + GustTerm(cfg, rate))
    else (l, heel)
  }

  function HeelTerm(cfg: Config, snap: Snapshot): real {
    if snap.heel.Some? && cfg.heelGain != 0.0 then cfg.heelGain * snap.heel.value else 0.0
  }

  function GustTerm(cfg: Config, rate: real): real {
    if Abs(rate) > cfg.gustThreshold then cfg.gustGain * rate else 0.0
  }

  /** Clamp and rate limit: from raw rudder to command. */
  function Command(cfg: Config, last: real, raw: real, dt: real): real
    requires ValidConfig(cfg)
  {
    RateLimit(last, Clamp(raw, -cfg.gains.maxRudder, cfg.gains.maxRudder), cfg.maxRudderRate, dt)
  }

  /** Recovery mode is updated before dispatch, since it changes the gains. */
  function Adapt(cfg: Config, m: Maths, l: Local, snap: Snapshot, heading: Option<real>): (r: (Local, PidConfig))
    ensures r.0 == l.(recovery := r.0.recovery) && r.1.maxRudder == cfg.gains.maxRudder
  {
    var deviation := RecoveryError(snap, heading);
    var recovery := if deviation.None? then l.recovery
                    else RecoveryStep(l.recovery, deviation.value, cfg.recoveryThreshold, cfg.recoveryMaxTicks);
    (l.(recovery := recovery), RecoveryGains(recovery, Gains(cfg, snap, m), cfg.recoveryGainFactor))
  }

  /** Steering once the heading has been checked. */
  function SteerWith(cfg: Config, m: Maths, l: Local, snap: Snapshot, heading: Option<real>, now: int, dt: real): (Local, Outcome)
    requires ValidConfig(cfg) && dt != 0.0
  {
    var (adapted, gains) := Adapt(cfg, m, l, snap, heading);
    var d := Dispatch(cfg, m, adapted, snap, heading, dt, gains);
    if d.command.None? then (d.local, Skip)
    else
      var (after, extra) := Feedforward(cfg, d.local, snap, dt);
      (after, Steer(Command(cfg, snap.lastRudder, d.command.value.0 + extra, dt), d.command.value.1, now, dt))
  }

  function Decide(cfg: Config, m: Maths, l: Local, snap: Snapshot, now: int): (Local, Outcome)
    requires ValidConfig(cfg)
  {
    if !snap.enabled then (l, Skip)
    else
      var ready := OnMode(l, snap.mode);
      if snap.timedOut then (Stopped(ready), Stop(SensorTimeout))
      else if snap.target.None? then (ready, Skip)
      else
        var dt := TimeStep(cfg, snap.lastTick, now);
        if snap.heading.None? then SteerWith(cfg, m, ready, snap, None, now, dt)
        else
          var (checked, verdict) := Check(ready.plausibility, snap.heading.value, cfg.maxHeadingRate, dt, cfg.glitchLimit);
          if verdict.SensorFailure? then (Stopped(ready), Stop(HeadingFailure))
          else SteerWith(cfg, m, ready.(plausibility := checked), snap, PassedOn(verdict), now, dt)
  }

  // ----- steps -----

  /** Where the loop is between two awaits. */
  datatype Phase =
    | Sleeping
    | Holding(snap: Snapshot, due: bool)
    | Stopping(cause: Cause)
    | Writing(rudder: real, error: real, at: int, dt: real, due: bool, actual: Option<real>)
    | Emitting(rudder: real, due: bool, monitored: Option<Option<real>>)

  /** What the rest of the system can see: rudder commands, and the switch going on or off. */
  datatype Event = Rudder(angle: real) | On | Off

  function Wake(cfg: Config, l: Local, s: Shared, now: int): (Local, Phase) {
    var ticks := l.ticks + 1;
    (l.(ticks := ticks), Holding(TakeSnapshot(cfg, s, now), ticks % OutputEvery(cfg) == 0))
  }

  function Plan(cfg: Config, m: Maths, l: Local, snap: Snapshot, due: bool, now: int): (Local, Phase)
    requires ValidConfig(cfg)
  {
    var (after, outcome) := Decide(cfg, m, l, snap, now);
    (after,
     match outcome
     case Skip => Sleeping
     case Stop(cause) => Stopping(cause)
     case Steer(rudder, error, at, dt) => Writing(rudder, error, at, dt, due, snap.actualRudder))
  }

  function SelfDisengage(s: Shared): Shared {
    s.(enabled := false, lastRudder := 0.0, lastTick := None)
  }

  function WriteBack(s: Shared, rudder: real, error: real, at: int): Shared {
    s.(lastRudder := rudder, lastError := error, lastTick := Some(at))
  }

  function Monitor(cfg: Config, l: Local, rudder: real, monitored: Option<Option<real>>): Local {
    if monitored.None? then l
    else l.(feedback := FeedbackStep(l.feedback, rudder, monitored.value, cfg.feedbackThreshold, cfg.feedbackTimeoutTicks))
  }

  /** What one step of the loop reads and changes; `emitted` are its new events. */
  datatype LoopState = LoopState(local: Local, shared: Shared, phase: Phase, emitted: seq<Event>)

  /** The loop's next step, from where it stands. */
  function Advance(cfg: Config, m: Maths, l: Local, s: Shared, phase: Phase, now: int): LoopState
    requires ValidConfig(cfg)
  {
    match phase
    case Sleeping =>
      var (local, next) := Wake(cfg, l, s, now);
      LoopState(local, s, next, [])
    case Holding(snap, due) =>
      var (local, next) := Plan(cfg, m, l, snap, due, now);
      LoopState(local, s, next, [])
    case Stopping(_) => LoopState(l, SelfDisengage(s), Emitting(0.0, true, None), [Off])
    case Writing(rudder, error, at, _, due, actual) =>
      LoopState(l, WriteBack(s, rudder, error, at), Emitting(rudder, due, Some(actual)), [])
    case Emitting(rudder, due, monitored) =>
      LoopState(Monitor(cfg, l, rudder, monitored), s, Sleeping, if due then [Rudder(rudder)] else [])
  }

  class ControlLoop {
    const cfg: Config
    const maths: Maths
    const shared: AutopilotState
    const pid: PidController
    const windFilter: CircularFilter
    const recovery: RecoveryState
    const gust: RateDetector
    const feedback: RudderFeedbackMonitor
    const plausibility: HeadingPlausibility
    var prevMode: Option<Mode>
    var tickCounter: nat
    var phase: Phase
    var log: seq<Event>

    ghost predicate Valid()
      reads this, pid, windFilter
    {
      && ValidConfig(cfg)
      && pid.Valid() && pid.integralLimit == cfg.integralLimit
      && windFilter.Valid() && windFilter.sinFilter.alpha == cfg.windFilterAlpha
      && gust.outputFilter.alpha == 0.5
      && gust.outputFilter != windFilter.sinFilter && gust.outputFilter != windFilter.cosFilter
      && plausibility.maxConsecutiveGlitches == cfg.glitchLimit
    }

    ghost function Locals(): Local
      reads this, pid, windFilter.sinFilter, windFilter.cosFilter, recovery, gust, gust.outputFilter, feedback, plausibility
    {
      Local(pid.integral, (windFilter.sinFilter.value, windFilter.cosFilter.value), recovery.State(),
            gust.prevValue, gust.outputFilter.value, feedback.State(), plausibility.State(), prevMode, tickCounter)
    }

    constructor (cfg: Config, maths: Maths, shared: AutopilotState)
      requires ValidConfig(cfg)
      ensures Valid() && this.cfg == cfg && this.maths == maths && this.shared == shared
      ensures Locals() == FreshLocal && phase == Sleeping && log == []
      ensures fresh(pid) && fresh(windFilter) && fresh(recovery) && fresh(gust) && fresh(feedback) && fresh(plausibility)
    {
      this.cfg, this.maths, this.shared := cfg, maths, shared;
      pid := new PidController(cfg.integralLimit);
      windFilter := new CircularFilter(cfg.windFilterAlpha);
      recovery := new RecoveryState();
      gust := new RateDetector(0.5);
      feedback := new RudderFeedbackMonitor();
      plausibility := new HeadingPlausibility(cfg.glitchLimit);
      prevMode, tickCounter, phase, log := None, 0, Sleeping, [];
    }

    /** The controllers and filters, which only the loop's computation changes. */
    ghost function Instruments(): set<object> {
      {pid, windFilter.sinFilter, windFilter.cosFilter, recovery, gust, gust.outputFilter, feedback, plausibility}
    }

    method ResetForMode(mode: Mode)
      requires Valid()
      modifies this`prevMode, Instruments()
      ensures Valid() && Locals() == OnMode(old(Locals()), mode)
    {
      if prevMode != Some(mode) {
        pid.Reset();
        windFilter.Reset();
        recovery.Reset();
        gust.Reset();
        feedback.Reset();
        plausibility.Reset();
        prevMode := Some(mode);
      }
    }

    method ResetControllers()
      requires Valid()
      modifies Instruments()
      ensures Valid() && Locals() == Stopped(old(Locals()))
    {
      pid.Reset();
      recovery.Reset();
      feedback.Reset();
      plausibility.Reset();
    }

    /** Heading or wind-angle hold (`modes::heading::compute` and the wind arms). */
    method HoldOn(error: real, prevError: real, yawRate: Option<real>, dt: real, gains: PidConfig) returns (command: Option<(real, real)>)
      requires Valid() && 0.0 <= gains.maxRudder && dt != 0.0
      modifies pid
      ensures Valid() && Dispatched(Locals(), command) == Hold(cfg, old(Locals()), error, prevError, yawRate, dt, gains)
    {
      var dError := DError(error, prevError, yawRate, dt);
      var rudder := pid.Compute(error, dError, dt, gains);
      command := Some((rudder, error));
    }

    method DispatchMode(snap: Snapshot, heading: Option<real>, dt: real, gains: PidConfig) returns (command: Option<(real, real)>)
      requires Valid() && 0.0 <= gains.maxRudder && dt != 0.0
      modifies Instruments()
      ensures Valid() && Dispatched(Locals(), command) == Dispatch(cfg, maths, old(Locals()), snap, heading, dt, gains)
    {
      var yawRate := ValidateYawRate(snap.yawRate, cfg.maxYawRate);
      match snap.mode {
        case Compass =>
          if heading.None? {
            return None;
          }
          var error := NormalizeByLoop(EffectiveTarget(snap) - heading.value);
          command := HoldOn(error, snap.prevError, yawRate, dt, gains);
        case Route =>
          if heading.None? || snap.primary.None? {
            return None;
          }
          var desired := DesiredHeading(cfg, snap.primary.value, OrZero(snap.xte), maths);
          var error := NormalizeByLoop(desired - heading.value);
          command := HoldOn(error, snap.prevError, yawRate, dt, gains);
        case _ =>
          command := HoldWindOn(snap, yawRate, dt, gains);
      }
    }

    method HoldWindOn(snap: Snapshot, yawRate: Option<real>, dt: real, gains: PidConfig) returns (command: Option<(real, real)>)
      requires Valid() && 0.0 <= gains.maxRudder && dt != 0.0
      modifies pid, windFilter.sinFilter, windFilter.cosFilter
      ensures Valid() && Dispatched(Locals(), command) == HoldWind(cfg, maths, old(Locals()), snap, yawRate, dt, gains)
    {
      if snap.primary.None? {
        return None;
      }
      var current := FilterAngle(snap.primary.value);
      var error := NormalizeByLoop(EffectiveTarget(snap) - current);
      command := HoldOn(error, snap.prevError, yawRate, dt, gains);
    }

    method FilterAngle(raw: real) returns (current: real)
      requires Valid()
      modifies windFilter.sinFilter, windFilter.cosFilter
      ensures Valid() && (Locals(), current) == FilterWind(cfg, old(Locals()), raw, maths)
    {
      current := windFilter.Update((maths.sin(raw), maths.cos(raw)), maths.atan2);
    }

    method FeedForward(snap: Snapshot, dt: real) returns (extra: real)
      requires Valid()
      modifies gust, gust.outputFilter
      ensures Valid() && (Locals(), extra) == Feedforward(cfg, old(Locals()), snap, dt)
    {
      extra := HeelTerm(cfg, snap);
      if snap.windSpeed.Some? && cfg.gustGain != 0.0 {
        var rate := gust.Update(snap.windSpeed.value, dt);
        extra := extra + GustTerm(cfg, rate);
      }
    }

    method AdaptGains(snap: Snapshot, heading: Option<real>) returns (gains: PidConfig)
      requires Valid()
      modifies recovery
      ensures Valid() && (Locals(), gains) == Adapt(cfg, maths, old(Locals()), snap, heading)
    {
      var deviation := RecoveryError(snap, heading);
      if deviation.Some? {
        var _ := recovery.Update(deviation.value, cfg.recoveryThreshold, cfg.recoveryMaxTicks);
      }
      gains := RecoveryGains(Recovery(recovery.active, recovery.ticksRemaining), Gains(cfg, snap, maths), cfg.recoveryGainFactor);
    }

    method SteerOn(snap: Snapshot, heading: Option<real>, now: int, dt: real) returns (outcome: Outcome)
      requires Valid() && dt != 0.0
      modifies Instruments()
      ensures Valid() && (Locals(), outcome) == SteerWith(cfg, maths, old(Locals()), snap, heading, now, dt)
    {
      var gains := AdaptGains(snap, heading);
      var command := DispatchMode(snap, heading, dt, gains);
      if command.None? {
        return Skip;
      }
      var extra := FeedForward(snap, dt);
      outcome := Steer(Command(cfg, snap.lastRudder, command.value.0 + extra, dt), command.value.1, now, dt);
    }

    method DecideOn(snap: Snapshot, now: int) returns (outcome: Outcome)
      requires Valid()
      modifies this`prevMode, Instruments()
      ensures Valid() && (Locals(), outcome) == Decide(cfg, maths, old(Locals()), snap, now)
    {
      if !snap.enabled {
        return Skip;
      }
      ResetForMode(snap.mode);
      if snap.timedOut {
        ResetControllers();
        return Stop(SensorTimeout);
      }
      if snap.target.None? {
        return Skip;
      }
      var dt := TimeStep(cfg, snap.lastTick, now);
      var heading := None;
      if snap.heading.Some? {
        var verdict := plausibility.CheckHeading(snap.heading.value, cfg.maxHeadingRate, dt);
        if verdict.SensorFailure? {
          ResetControllers();
          return Stop(HeadingFailure);
        }
        heading := PassedOn(verdict);
      }
      outcome := SteerOn(snap, heading, now, dt);
    }

    /** After the sleep: count the tick and read the shared state under its lock. */
    method WakeUp(now: int)
      requires Valid() && phase == Sleeping
      modifies this`tickCounter, this`phase
      ensures Valid() && (Locals(), phase) == Wake(cfg, old(Locals()), shared.State(), now)
    {
      tickCounter := tickCounter + 1;
      var due := tickCounter % OutputEvery(cfg) == 0;
      var timedOut := shared.SensorTimedOut(cfg.sensorTimeoutSecs, now);
      var primary := shared.CurrentSensor();
      var snap := TakeSnapshot(cfg, shared.State(), now).(timedOut := timedOut, primary := primary);
      phase := Holding(snap, due);
    }

    /** Compute from the snapshot; no lock is held. */
    method Compute(now: int)
      requires Valid() && phase.Holding?
      modifies this`prevMode, this`phase, Instruments()
      ensures Valid() && (Locals(), phase) == Plan(cfg, maths, old(Locals()), old(phase).snap, old(phase).due, now)
    {
      var snap, due := phase.snap, phase.due;
      var outcome := DecideOn(snap, now);
      match outcome {
        case Skip => phase := Sleeping;
        case Stop(cause) => phase := Stopping(cause);
        case Steer(rudder, error, at, dt) => phase := Writing(rudder, error, at, dt, due, snap.actualRudder);
      }
    }

    /** Switch the autopilot off under the lock. */
    method WriteStop()
      requires Valid() && phase.Stopping?
      modifies this`phase, this`log, shared
      ensures Valid() && Locals() == old(Locals()) && shared.State() == SelfDisengage(old(shared.State()))
      ensures phase == Emitting(0.0, true, None) && log == old(log) + [Off]
    {
      shared.enabled := false;
      shared.lastRudder := 0.0;
      shared.lastTick := None;
      log := log + [Off];
      phase := Emitting(0.0, true, None);
    }

    /** Write the command back under the lock. */
    method Write()
      requires Valid() && phase.Writing?
      modifies this`phase, shared
      ensures Valid() && Locals() == old(Locals())
      ensures shared.State() == WriteBack(old(shared.State()), old(phase).rudder, old(phase).error, old(phase).at)
      ensures phase == Emitting(old(phase).rudder, old(phase).due, Some(old(phase).actual))
    {
      shared.lastRudder := phase.rudder;
      shared.lastError := phase.error;
      shared.lastTick := Some(phase.at);
      phase := Emitting(phase.rudder, phase.due, Some(phase.actual));
    }

    /** Emit the command, if one is due, and compare it with the rudder feedback. */
    method Emit()
      requires Valid() && phase.Emitting?
      modifies this`phase, this`log, feedback
      ensures Valid() && Locals() == Monitor(cfg, old(Locals()), old(phase).rudder, old(phase).monitored)
      ensures phase == Sleeping && log == old(log) + if old(phase).due then [Rudder(old(phase).rudder)] else []
    {
      if phase.due {
        log := log + [Rudder(phase.rudder)];
      }
      if phase.monitored.Some? {
        var _ := feedback.Update(phase.rudder, phase.monitored.value, cfg.feedbackThreshold, cfg.feedbackTimeoutTicks);
      }
      phase := Sleeping;
    }

    /** The state the machine of AutopilotRuns sees, with the events of `log` from `n` on. */
    ghost function View(n: nat): LoopState
      requires n <= |log|
      reads this, shared, Instruments()
    {
      LoopState(Locals(), shared.State(), phase, log[n..])
    }

    /** Runs the loop to its next await, from sleep or with a snapshot in hand. */
    method StepComputing(now: int)
      requires Valid() && (phase.Sleeping? || phase.Holding?)
      modifies this`prevMode, this`tickCounter, this`phase, Instruments()
      ensures Valid() && View(|log|) == Advance(cfg, maths, old(Locals()), shared.State(), old(phase), now)
    {
      if phase.Sleeping? {
        WakeUp(now);
      } else {
        Compute(now);
      }
    }

    /** Runs the loop to its next await, with an outcome to write back or a command to emit. */
    method StepActing(now: int)
      requires Valid() && (phase.Stopping? || phase.Writing? || phase.Emitting?)
      modifies this`phase, this`log, shared, feedback
      ensures Valid() && |log| >= |old(log)| && log[..|old(log)|] == old(log)
      ensures View(|old(log)|) == Advance(cfg, maths, old(Locals()), old(shared.State()), old(phase), now)
    {
      if phase.Stopping? {
        WriteStop();
      } else if phase.Writing? {
        Write();
      } else {
        Emit();
      }
    }
  }
}
