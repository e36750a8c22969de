/** What one pass of the autopilot's control loop decides, from its snapshot
    (crates/plugins/autopilot/src/lib.rs). */
module AutopilotDecisions {
  import opened Basics
  import opened Angles
  import opened AutopilotControl
  import opened AutopilotProvider
  import opened AutopilotLoop

  // ----- when the loop steers, skips and disengages -----

  /** A heading is rejected once too often. */
  predicate RejectedTooOften(p: Plausibility, value: real, maxRate: real, dt: real, limit: nat) {
    p.prev.Some? && p.glitches + 1 >= limit && Abs(NormalizeAngle(value - p.prev.value)) > maxRate * Max(dt, 0.0)
  }

  lemma FailureIffRejectedTooOften(p: Plausibility, value: real, maxRate: real, dt: real, limit: nat)
    ensures Check(p, value, maxRate, dt, limit).1.SensorFailure? <==> RejectedTooOften(p, value, maxRate, dt, limit)
  {}

  predicate HeadingFails(cfg: Config, l: Local, snap: Snapshot, now: int)
    requires ValidConfig(cfg)
  {
    snap.heading.Some?
    && RejectedTooOften(OnMode(l, snap.mode).plausibility, snap.heading.value, cfg.maxHeadingRate,
                        TimeStep(cfg, snap.lastTick, now), cfg.glitchLimit)
  }

  /** A mode needs its heading, its primary sensor, or both. */
  predicate InputsPresent(snap: Snapshot) {
    match snap.mode
    case Compass => snap.heading.Some?
    case Route => snap.heading.Some? && snap.primary.Some?
    case _ => snap.primary.Some?
  }

  lemma SteersIffInputsPresent(cfg: Config, m: Maths, l: Local, snap: Snapshot, heading: Option<real>, now: int, dt: real)
    requires ValidConfig(cfg) && dt != 0.0 && (heading.Some? <==> snap.heading.Some?)
    ensures var o := SteerWith(cfg, m, l, snap, heading, now, dt).1;
            if InputsPresent(snap) then o.Steer? && o.at == now && o.dt == dt else o == Skip
  {}

  /** The outcome once the loop is on, its sensor is fresh and it has a target. */
  ghost predicate ActiveOutcome(cfg: Config, l: Local, snap: Snapshot, now: int, o: Outcome)
    requires ValidConfig(cfg)
  {
    if HeadingFails(cfg, l, snap, now) then o == Stop(HeadingFailure)
    else if InputsPresent(snap) then o.Steer? && o.at == now && o.dt == TimeStep(cfg, snap.lastTick, now)
    else o == Skip
  }

  lemma ActiveOutcomes(cfg: Config, m: Maths, l: Local, snap: Snapshot, now: int)
    requires ValidConfig(cfg) && snap.enabled && !snap.timedOut && snap.target.Some?
    ensures ActiveOutcome(cfg, l, snap, now, Decide(cfg, m, l, snap, now).1)
  {
    var ready, dt := OnMode(l, snap.mode), TimeStep(cfg, snap.lastTick, now);
    if snap.heading.None? {
      SteersIffInputsPresent(cfg, m, ready, snap, None, now, dt);
    } else {
      FailureIffRejectedTooOften(ready.plausibility, snap.heading.value, cfg.maxHeadingRate, dt, cfg.glitchLimit);
      var (checked, verdict) := Check(ready.plausibility, snap.heading.value, cfg.maxHeadingRate, dt, cfg.glitchLimit);
      if !verdict.SensorFailure? {
        SteersIffInputsPresent(cfg, m, ready.(plausibility := checked), snap, PassedOn(verdict), now, dt);
      }
    }
  }

  /** Main result: the loop disengages itself exactly on a stale sensor of the active mode
      or a failed heading, and steers exactly if it is enabled, has a target and every
      input its mode needs; a stale sensor comes first, a missing target second. */
  lemma OutcomeIff(cfg: Config, m: Maths, l: Local, snap: Snapshot, now: int)
    requires ValidConfig(cfg)
    ensures var o, active := Decide(cfg, m, l, snap, now).1, snap.enabled && !snap.timedOut && snap.target.Some?;
            && (o == Stop(SensorTimeout) <==> snap.enabled && snap.timedOut)
            && (o == Stop(HeadingFailure) <==> active && HeadingFails(cfg, l, snap, now))
            && (o.Steer? <==> active && !HeadingFails(cfg, l, snap, now) && InputsPresent(snap))
  {
    if snap.enabled && !snap.timedOut && snap.target.Some? {
      ActiveOutcomes(cfg, m, l, snap, now);
    }
  }

  // ----- a change of mode forgets -----

  /** Main result: in the first pass after a change of mode nothing of the former mode's
      controllers, filters and monitors has any influence. */
  lemma ModeChangeForgets(cfg: Config, m: Maths, a: Local, b: Local, snap: Snapshot, now: int)
    requires ValidConfig(cfg) && a.ticks == b.ticks
    requires a.prevMode != Some(snap.mode) && b.prevMode != Some(snap.mode)
    ensures Decide(cfg, m, a, snap, now).1 == Decide(cfg, m, b, snap, now).1
    ensures snap.enabled ==> Decide(cfg, m, a, snap, now).0 == Decide(cfg, m, b, snap, now).0
  {
    assert OnMode(a, snap.mode) == OnMode(b, snap.mode);
  }

  // ----- the error leads to the target -----

  /** Turning by `error` leads from `current` to `wanted`, and never by more than half a turn. */
  ghost predicate LeadsTo(current: real, error: real, wanted: real) {
    Congruent(wanted - current, error) && Abs(error) <= PI
  }

  lemma WrappedErrorLeads(current: real, wanted: real)
    ensures LeadsTo(current, NormalizeAngle(wanted - current), wanted)
  {
    NormalizeAngleWraps(wanted - current);
  }

  /** What the mode holds: the heading or the filtered wind angle. */
  function Held(cfg: Config, m: Maths, l: Local, snap: Snapshot, heading: Option<real>): real
    requires InputsPresent(snap) && (heading.Some? <==> snap.heading.Some?)
  {
    match snap.mode
    case Compass => heading.value
    case Route => heading.value
    case _ => FilterWind(cfg, l, snap.primary.value, m).1
  }

  /** And where it is to go: in route mode the line of sight, else the target with the dodge. */
  function Wanted(cfg: Config, m: Maths, snap: Snapshot): real
    requires InputsPresent(snap)
  {
    if snap.mode == Route then DesiredHeading(cfg, snap.primary.value, OrZero(snap.xte), m) else EffectiveTarget(snap)
  }

  /** Main result: in every mode the reported error is the shorter turn from what is held
      to where it is wanted. */
  lemma ErrorLeadsToTarget(cfg: Config, m: Maths, l: Local, snap: Snapshot, heading: Option<real>, now: int, dt: real)
    requires ValidConfig(cfg) && dt != 0.0 && (heading.Some? <==> snap.heading.Some?) && InputsPresent(snap)
    ensures var o := SteerWith(cfg, m, l, snap, heading, now, dt).1;
            o.Steer? && LeadsTo(Held(cfg, m, l, snap, heading), o.error, Wanted(cfg, m, snap))
  {
    WrappedErrorLeads(Held(cfg, m, l, snap, heading), Wanted(cfg, m, snap));
  }
}
