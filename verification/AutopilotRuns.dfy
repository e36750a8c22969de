/** Runs of the autopilot: the control loop's steps interleaved arbitrarily with
    provider calls and sensor deltas (crates/plugins/autopilot/src/lib.rs, provider.rs). */
module AutopilotRuns {
  import opened Basics
  import opened Deltas
  import opened AutopilotControl
  import opened AutopilotProvider
  import opened AutopilotLoop

  /** `log` merges what the loop emits with the switching done by provider calls. */
  datatype System = System(now: int, shared: Shared, local: Local, phase: Phase, log: seq<Event>)

  datatype Action = LoopStep | Request(call: Call) | Receive(delta: Delta)

  /** An action, some nanoseconds after the previous one. */
  datatype Timed = Timed(delay: nat, action: Action)

  function Start(mode: Mode, now: int): System {
    System(now, NewShared(mode), FreshLocal, Sleeping, [])
  }

  function SwitchEvents(c: Call): seq<Event> {
    if Enables(c) then [On] else if Disables(c) then [Off] else []
  }

  function Next(cfg: Config, m: Maths, s: System, t: Timed): System
    requires ValidConfig(cfg)
  {
    var now := s.now + t.delay;
    match t.action
    case LoopStep =>
      var r := Advance(cfg, m, s.local, s.shared, s.phase, now);
      System(now, r.shared, r.local, r.phase, s.log + r.emitted)
    case Request(call) => System(now, Serve(s.shared, call).0, s.local, s.phase, s.log + SwitchEvents(call))
    case Receive(delta) => System(now, SenseDelta(s.shared, delta, |delta.updates|, now), s.local, s.phase, s.log)
  }

  type Schedule = seq<Timed>

  /** The state after the first `n` actions of a schedule. */
  function Execute(cfg: Config, m: Maths, s: System, schedule: Schedule, n: nat): System
    requires ValidConfig(cfg) && n <= |schedule|
  {
    if n == 0 then s else Next(cfg, m, Execute(cfg, m, s, schedule, n - 1), schedule[n - 1])
  }

  /** The states after the first `n` actions, the initial one included. */
  function Trace(cfg: Config, m: Maths, s: System, schedule: Schedule, n: nat): (es: seq<System>)
    requires ValidConfig(cfg) && n <= |schedule|
    ensures |es| == n + 1 && forall k :: 0 <= k <= n ==> es[k] == Execute(cfg, m, s, schedule, k)
  {
    seq(n + 1, k requires 0 <= k <= n => Execute(cfg, m, s, schedule, k))
  }

  // ----- sensor deltas touch neither switch nor rudder -----

  predicate SameControls(s: Shared, t: Shared) {
    t.enabled == s.enabled && t.lastRudder == s.lastRudder && t.lastTick == s.lastTick && t.mode == s.mode
  }

  lemma {:induction false} UpdateKeepsControls(s: Shared, u: Update, n: nat, now: int)
    requires n <= |u.values|
    ensures SameControls(s, SenseUpdate(s, u, n, now))
  {
    if n > 0 {
      UpdateKeepsControls(s, u, n - 1, now);
    }
  }

  lemma {:induction false} DeltaKeepsControls(s: Shared, d: Delta, n: nat, now: int)
    requires n <= |d.updates|
    ensures SameControls(s, SenseDelta(s, d, n, now))
  {
    if n > 0 {
      DeltaKeepsControls(s, d, n - 1, now);
      UpdateKeepsControls(SenseDelta(s, d, n - 1, now), d.updates[n - 1], |d.updates[n - 1].values|, now);
    }
  }

  // ----- one command at most after switching off -----

  /** Rudder commands the loop may still emit before it reads the state again. */
  function InFlight(p: Phase): nat {
    match p
    case Sleeping => 0
    case Holding(snap, _) => if snap.enabled then 1 else 0
    case Stopping(_) => 1
    case Writing(_, _, _, _, due, _) => if due then 1 else 0
    case Emitting(_, due, _) => if due then 1 else 0
  }

  function Rudders(log: seq<Event>): nat {
    if log == [] then 0 else Rudders(log[..|log| - 1]) + if log[|log| - 1].Rudder? then 1 else 0
  }

  /** Commands emitted since the autopilot was first switched off after it was last
      switched on; `None` if it was not. */
  function SinceOff(log: seq<Event>): Option<nat> {
    if log == [] then None
    else
      var before := SinceOff(log[..|log| - 1]);
      match log[|log| - 1]
      case On => None
      case Off => Some(if before.Some? then before.value else 0)
      case Rudder(_) => if before.Some? then Some(before.value + 1) else None
  }

  lemma RuddersOfMore(log: seq<Event>, e: Event)
    ensures Rudders(log + [e]) == Rudders(log) + if e.Rudder? then 1 else 0
    ensures SinceOff(log + [e]) == match e
                                   case On => None
                                   case Off => Some(if SinceOff(log).Some? then SinceOff(log).value else 0)
                                   case Rudder(_) => if SinceOff(log).Some? then Some(SinceOff(log).value + 1) else None
  {
    assert (log + [e])[..|log|] == log;
  }

  predicate AtMostOne(count: Option<nat>) {
    count.Some? ==> count.value <= 1
  }

  /** At every point of the log. */
  predicate AtMostOneEach(log: seq<Event>) {
    log == [] || (AtMostOneEach(log[..|log| - 1]) && AtMostOne(SinceOff(log)))
  }

  lemma {:induction false} AtMostOneAt(log: seq<Event>, j: nat)
    requires AtMostOneEach(log) && j <= |log|
    ensures AtMostOne(SinceOff(log[..j]))
  {
    if j < |log| {
      AtMostOneAt(log[..|log| - 1], j);
      assert log[..|log| - 1][..j] == log[..j];
    } else {
      assert log[..j] == log;
    }
  }

  lemma AppendEvent(log: seq<Event>, e: Event)
    requires AtMostOneEach(log) && AtMostOne(SinceOff(log + [e]))
    ensures AtMostOneEach(log + [e])
  {
    assert (log + [e])[..|log|] == log;
  }

  /** While off, commands emitted and in flight are at most one. */
  predicate QuietWith(log: seq<Event>, enabled: bool, inFlight: nat) {
    && (SinceOff(log).Some? ==> !enabled && SinceOff(log).value + inFlight <= 1)
    && AtMostOneEach(log)
  }

  predicate Quiet(s: System) {
    QuietWith(s.log, s.shared.enabled, InFlight(s.phase))
  }

  lemma RuddersOfOne(e: Event)
    ensures Rudders([e]) == if e.Rudder? then 1 else 0
  {
    assert [e][..0] == [];
  }

  /** A loop step that emits an event and takes on nothing while off. */
  lemma StaysQuiet(log: seq<Event>, enabled: bool, inFlight: nat, e: Event, enabled': bool, inFlight': nat)
    requires QuietWith(log, enabled, inFlight) && e != On
    requires !enabled ==> !enabled' && inFlight' + (if e.Rudder? then 1 else 0) <= inFlight
    requires e == Off ==> !enabled' && inFlight' <= 1
    ensures QuietWith(log + [e], enabled', inFlight')
  {
    RuddersOfMore(log, e);
    AppendEvent(log, e);
  }

  /** Only a loop that holds an enabled snapshot can go on to command the rudder. */
  lemma PlanFlight(cfg: Config, m: Maths, l: Local, snap: Snapshot, due: bool, now: int)
    requires ValidConfig(cfg)
    ensures InFlight(Plan(cfg, m, l, snap, due, now).1) <= InFlight(Holding(snap, due))
  {}

  /** Every loop step spends what it emits, and takes on a new command only from an enabled state. */
  lemma AdvanceFlight(cfg: Config, m: Maths, l: Local, s: Shared, phase: Phase, now: int)
    requires ValidConfig(cfg)
    ensures var r := Advance(cfg, m, l, s, phase, now);
            && (r.emitted == [] || (phase.Stopping? && r.emitted == [Off]) || (phase.Emitting? && phase.due && r.emitted == [Rudder(phase.rudder)]))
            && (!s.enabled ==> InFlight(r.phase) + Rudders(r.emitted) <= InFlight(phase))
            && (!s.enabled ==> !r.shared.enabled)
            && (r.emitted == [Off] ==> !r.shared.enabled && InFlight(r.phase) <= 1)
            && InFlight(r.phase) <= 1
  {
    match phase
    case Holding(snap, due) => PlanFlight(cfg, m, l, snap, due, now);
    case Emitting(rudder, due, _) =>
      RuddersOfOne(Rudder(rudder));
    case Stopping(_) =>
      RuddersOfOne(Off);
    case _ =>
  }

  lemma QuietLoopStep(cfg: Config, m: Maths, s: System, t: Timed)
    requires ValidConfig(cfg) && Quiet(s) && t.action.LoopStep?
    ensures Quiet(Next(cfg, m, s, t))
  {
    AdvanceFlight(cfg, m, s.local, s.shared, s.phase, s.now + t.delay);
    var r := Advance(cfg, m, s.local, s.shared, s.phase, s.now + t.delay);
    if r.emitted == [] {
      assert s.log + r.emitted == s.log;
    } else {
      RuddersOfOne(r.emitted[0]);
      StaysQuiet(s.log, s.shared.enabled, InFlight(s.phase), r.emitted[0], r.shared.enabled, InFlight(r.phase));
    }
  }

  /** A provider call that switches on or off, or neither. */
  lemma SwitchQuiet(log: seq<Event>, enabled: bool, inFlight: nat, es: seq<Event>, enabled': bool)
    requires QuietWith(log, enabled, inFlight) && inFlight <= 1
    requires (es == [] && enabled' == enabled) || es == [On] || (es == [Off] && !enabled')
    ensures QuietWith(log + es, enabled', inFlight)
  {
    if es == [] {
      assert log + es == log;
    } else {
      RuddersOfMore(log, es[0]);
      AppendEvent(log, es[0]);
    }
  }

  lemma QuietRequest(cfg: Config, m: Maths, s: System, t: Timed)
    requires ValidConfig(cfg) && Quiet(s) && t.action.Request?
    ensures Quiet(Next(cfg, m, s, t))
  {
    var call := t.action.call;
    CallEffects(s.shared, call);
    SwitchQuiet(s.log, s.shared.enabled, InFlight(s.phase), SwitchEvents(call), Serve(s.shared, call).0.enabled);
  }

  lemma {:induction false} AlwaysQuiet(cfg: Config, m: Maths, mode: Mode, now: int, schedule: Schedule, n: nat)
    requires ValidConfig(cfg) && n <= |schedule|
    ensures Quiet(Execute(cfg, m, Start(mode, now), schedule, n))
  {
    if n > 0 {
      AlwaysQuiet(cfg, m, mode, now, schedule, n - 1);
      var s, t := Execute(cfg, m, Start(mode, now), schedule, n - 1), schedule[n - 1];
      match t.action
      case LoopStep => QuietLoopStep(cfg, m, s, t);
      case Request(_) => QuietRequest(cfg, m, s, t);
      case Receive(d) => DeltaKeepsControls(s.shared, d, |d.updates|, s.now + t.delay);
    }
  }

  lemma {:induction false} SinceOffCountsWindow(log: seq<Event>, i: nat, j: nat)
    requires i < j <= |log| && log[i].Off? && On !in log[i..j]
    ensures SinceOff(log[..j]).Some? && Rudders(log[i..j]) <= SinceOff(log[..j]).value
  {
    assert log[..j] == log[..j - 1] + [log[j - 1]];
    RuddersOfMore(log[..j - 1], log[j - 1]);
    assert log[i..j] == log[i..j - 1] + [log[j - 1]];
    RuddersOfMore(log[i..j - 1], log[j - 1]);
    if i < j - 1 {
      SinceOffCountsWindow(log, i, j - 1);
    } else {
      assert log[i..j - 1] == [];
    }
  }

  /** Main result: in every interleaving of the loop with provider calls and sensor
      deltas, at most one rudder command is emitted between the moment the autopilot is
      switched off, by a call or by itself, and the next call that switches it on. */
  lemma AtMostOneCommandWhileOff(cfg: Config, m: Maths, mode: Mode, now: int, schedule: Schedule, i: nat, j: nat)
    requires ValidConfig(cfg)
    ensures var log := Execute(cfg, m, Start(mode, now), schedule, |schedule|).log;
            i < j <= |log| && log[i].Off? && On !in log[i..j] ==> Rudders(log[i..j]) <= 1
  {
    AlwaysQuiet(cfg, m, mode, now, schedule, |schedule|);
    var log := Execute(cfg, m, Start(mode, now), schedule, |schedule|).log;
    if i < j <= |log| && log[i].Off? && On !in log[i..j] {
      SinceOffCountsWindow(log, i, j);
      AtMostOneAt(log, j);
    }
  }

  ghost predicate NeverSwitchedOn(schedule: Schedule) {
    forall t <- schedule :: t.action.Request? ==> !Enables(t.action.call)
  }

  /** While off the autopilot stays off, and what it has emitted and may still emit
      does not grow. */
  predicate Calms(e: System, n: System) {
    !e.shared.enabled ==> !n.shared.enabled && Rudders(n.log) + InFlight(n.phase) <= Rudders(e.log) + InFlight(e.phase)
  }

  lemma {:induction false} TraceCalms(es: seq<System>, n: nat)
    requires n < |es| && (forall k :: 0 <= k < |es| - 1 ==> Calms(es[k], es[k + 1]))
    ensures Calms(es[0], es[n])
  {
    if n > 0 {
      TraceCalms(es, n - 1);
      assert Calms(es[n - 1], es[n]);
    }
  }

  /** A switched-off autopilot emits no more than what was in flight: none at all
      when the loop sleeps or holds a snapshot taken while off. */
  lemma OffEmitsOnlyInFlight(cfg: Config, m: Maths, s: System, schedule: Schedule, n: nat)
    requires ValidConfig(cfg) && n <= |schedule| && !s.shared.enabled && NeverSwitchedOn(schedule)
    ensures var e := Execute(cfg, m, s, schedule, n);
            !e.shared.enabled && Rudders(e.log) + InFlight(e.phase) <= Rudders(s.log) + InFlight(s.phase)
  {
    var es := Trace(cfg, m, s, schedule, n);
    forall k | 0 <= k < n ensures Calms(es[k], es[k + 1]) {
      assert schedule[k] in schedule;
      if !es[k].shared.enabled {
        OffStep(cfg, m, es[k], schedule[k]);
      }
    }
    TraceCalms(es, n);
  }

  lemma OffStep(cfg: Config, m: Maths, e: System, t: Timed)
    requires ValidConfig(cfg) && !e.shared.enabled && (t.action.Request? ==> !Enables(t.action.call))
    ensures var next := Next(cfg, m, e, t);
            !next.shared.enabled && Rudders(next.log) + InFlight(next.phase) <= Rudders(e.log) + InFlight(e.phase)
  {
    match t.action
    case LoopStep =>
      AdvanceFlight(cfg, m, e.local, e.shared, e.phase, e.now + t.delay);
      AppendEmitted(e.log, Advance(cfg, m, e.local, e.shared, e.phase, e.now + t.delay).emitted);
    case Request(call) =>
      CallEffects(e.shared, call);
      AppendEmitted(e.log, SwitchEvents(call));
      AppendEmitted([], SwitchEvents(call));
    case Receive(d) => DeltaKeepsControls(e.shared, d, |d.updates|, e.now + t.delay);
  }

  lemma AppendEmitted(log: seq<Event>, es: seq<Event>)
    requires |es| <= 1
    ensures Rudders(log + es) == Rudders(log) + Rudders(es)
  {
    if es == [] {
      assert log + es == log;
    } else {
      RuddersOfMore(log, es[0]);
      RuddersOfOne(es[0]);
      assert es == [es[0]];
    }
  }

  // ----- bounds in every reachable state -----

  predicate WithinReach(cfg: Config, last: real, rudder: real, dt: real) {
    && Abs(rudder) <= cfg.gains.maxRudder && (cfg.controlRate > 0.0 ==> dt > 0.0)
    && (cfg.maxRudderRate > 0.0 && dt > 0.0 ==> Abs(rudder - last) <= cfg.maxRudderRate * dt)
  }

  predicate OutcomeBounded(cfg: Config, last: real, o: Outcome) {
    o.Steer? ==> WithinReach(cfg, last, o.rudder, o.dt)
  }

  predicate PhaseBounded(cfg: Config, lastRudder: real, p: Phase) {
    match p
    case Sleeping => true
    case Holding(snap, _) => snap.lastRudder == lastRudder
    case Stopping(_) => true
    case Writing(rudder, _, _, dt, _, _) => WithinReach(cfg, lastRudder, rudder, dt)
    case Emitting(rudder, _, _) => Abs(rudder) <= cfg.gains.maxRudder
  }

  ghost predicate LogBounded(cfg: Config, log: seq<Event>) {
    forall e <- log :: e.Rudder? ==> Abs(e.angle) <= cfg.gains.maxRudder
  }

  ghost predicate Bounded(cfg: Config, s: System) {
    && Abs(s.local.integral) <= cfg.integralLimit
    && Abs(s.shared.lastRudder) <= cfg.gains.maxRudder
    && PhaseBounded(cfg, s.shared.lastRudder, s.phase)
    && LogBounded(cfg, s.log)
  }

  lemma DispatchKeepsIntegral(cfg: Config, m: Maths, l: Local, snap: Snapshot, heading: Option<real>, dt: real, gains: PidConfig)
    requires ValidConfig(cfg) && 0.0 <= gains.maxRudder && dt != 0.0 && Abs(l.integral) <= cfg.integralLimit
    ensures Abs(Dispatch(cfg, m, l, snap, heading, dt, gains).local.integral) <= cfg.integralLimit
  {}

  lemma CommandBounds(cfg: Config, last: real, raw: real, dt: real)
    requires ValidConfig(cfg) && Abs(last) <= cfg.gains.maxRudder && dt != 0.0 && (cfg.controlRate > 0.0 ==> dt > 0.0)
    ensures WithinReach(cfg, last, Command(cfg, last, raw, dt), dt)
  {
    RateLimitBounds(last, Clamp(raw, -cfg.gains.maxRudder, cfg.gains.maxRudder), cfg.maxRudderRate, dt);
  }

  lemma SteerBounds(cfg: Config, m: Maths, l: Local, snap: Snapshot, heading: Option<real>, now: int, dt: real)
    requires ValidConfig(cfg) && dt != 0.0 && (cfg.controlRate > 0.0 ==> dt > 0.0) && Abs(l.integral) <= cfg.integralLimit && Abs(snap.lastRudder) <= cfg.gains.maxRudder
    ensures var (after, o) := SteerWith(cfg, m, l, snap, heading, now, dt);
            Abs(after.integral) <= cfg.integralLimit && OutcomeBounded(cfg, snap.lastRudder, o)
  {
    var (adapted, gains) := Adapt(cfg, m, l, snap, heading);
    DispatchKeepsIntegral(cfg, m, adapted, snap, heading, dt, gains);
    var d := Dispatch(cfg, m, adapted, snap, heading, dt, gains);
    if d.command.Some? {
      CommandBounds(cfg, snap.lastRudder, d.command.value.0 + Feedforward(cfg, d.local, snap, dt).1, dt);
    }
  }

  lemma DecideBounds(cfg: Config, m: Maths, l: Local, snap: Snapshot, now: int)
    requires ValidConfig(cfg) && Abs(l.integral) <= cfg.integralLimit && Abs(snap.lastRudder) <= cfg.gains.maxRudder
    ensures var (after, o) := Decide(cfg, m, l, snap, now);
            Abs(after.integral) <= cfg.integralLimit && OutcomeBounded(cfg, snap.lastRudder, o)
  {
    if snap.enabled && !snap.timedOut && snap.target.Some? {
      var ready, dt := OnMode(l, snap.mode), TimeStep(cfg, snap.lastTick, now);
      if snap.heading.None? {
        SteerBounds(cfg, m, ready, snap, None, now, dt);
      } else {
        var (checked, verdict) := Check(ready.plausibility, snap.heading.value, cfg.maxHeadingRate, dt, cfg.glitchLimit);
        if !verdict.SensorFailure? {
          SteerBounds(cfg, m, ready.(plausibility := checked), snap, PassedOn(verdict), now, dt);
        }
      }
    }
  }

  lemma PlanBounds(cfg: Config, m: Maths, l: Local, snap: Snapshot, due: bool, now: int)
    requires ValidConfig(cfg) && Abs(l.integral) <= cfg.integralLimit && Abs(snap.lastRudder) <= cfg.gains.maxRudder
    ensures var (after, p) := Plan(cfg, m, l, snap, due, now);
            Abs(after.integral) <= cfg.integralLimit && PhaseBounded(cfg, snap.lastRudder, p)
  {
    DecideBounds(cfg, m, l, snap, now);
  }

  lemma AdvanceBounds(cfg: Config, m: Maths, l: Local, s: Shared, p: Phase, now: int)
    requires ValidConfig(cfg) && Abs(l.integral) <= cfg.integralLimit && Abs(s.lastRudder) <= cfg.gains.maxRudder
    requires PhaseBounded(cfg, s.lastRudder, p)
    ensures var r := Advance(cfg, m, l, s, p, now);
            && Abs(r.local.integral) <= cfg.integralLimit && Abs(r.shared.lastRudder) <= cfg.gains.maxRudder
            && PhaseBounded(cfg, r.shared.lastRudder, r.phase) && LogBounded(cfg, r.emitted)
  {
    if p.Holding? {
      PlanBounds(cfg, m, l, p.snap, p.due, now);
    }
  }

  lemma BoundedLoopStep(cfg: Config, m: Maths, s: System, t: Timed)
    requires ValidConfig(cfg) && Bounded(cfg, s) && t.action.LoopStep?
    ensures Bounded(cfg, Next(cfg, m, s, t))
  {
    AdvanceBounds(cfg, m, s.local, s.shared, s.phase, s.now + t.delay);
  }

  /** Main result: in every reachable state the rudder stays within its limits, in the
      shared state, on its way there and in every command emitted, and the integral
      within its own, whatever the sensors and the feedforwards say. */
  lemma AlwaysBounded(cfg: Config, m: Maths, mode: Mode, now: int, schedule: Schedule, n: nat)
    requires ValidConfig(cfg) && n <= |schedule|
    ensures Bounded(cfg, Execute(cfg, m, Start(mode, now), schedule, n))
  {
    StaysBounded(cfg, m, Start(mode, now), schedule, n);
  }

  lemma KeepsBounded(cfg: Config, m: Maths, s: System, t: Timed)
    requires ValidConfig(cfg) && Bounded(cfg, s)
    ensures Bounded(cfg, Next(cfg, m, s, t))
  {
    match t.action
    case LoopStep => BoundedLoopStep(cfg, m, s, t);
    case Request(call) => CallEffects(s.shared, call);
    case Receive(d) => DeltaKeepsControls(s.shared, d, |d.updates|, s.now + t.delay);
  }

  // ----- the rudder's speed -----

  /** Time the controller accounts for at one action: the step of a command written back. */
  function StepTime(s: System, t: Timed): real {
    if t.action.LoopStep? && s.phase.Writing? then s.phase.dt else 0.0
  }

  function TotalTime(cfg: Config, m: Maths, s: System, schedule: Schedule, n: nat): real
    requires ValidConfig(cfg) && n <= |schedule|
  {
    if n == 0 then 0.0
    else TotalTime(cfg, m, s, schedule, n - 1) + StepTime(Execute(cfg, m, s, schedule, n - 1), schedule[n - 1])
  }

  predicate NeverStopsItself(cfg: Config, m: Maths, s: System, schedule: Schedule, n: nat)
    requires ValidConfig(cfg) && n <= |schedule|
  {
    n == 0 || (NeverStopsItself(cfg, m, s, schedule, n - 1) && !Execute(cfg, m, s, schedule, n - 1).phase.Stopping?)
  }

  predicate Moved(from: real, to: real, rate: real, time: real) {
    Abs(to - from) <= rate * time
  }

  lemma StepMoves(cfg: Config, m: Maths, s: System, t: Timed)
    requires ValidConfig(cfg) && Bounded(cfg, s) && !s.phase.Stopping? && cfg.maxRudderRate > 0.0 && cfg.controlRate > 0.0
    ensures Moved(s.shared.lastRudder, Next(cfg, m, s, t).shared.lastRudder, cfg.maxRudderRate, StepTime(s, t))
  {
    match t.action
    case LoopStep =>
    case Request(call) => CallEffects(s.shared, call);
    case Receive(d) => DeltaKeepsControls(s.shared, d, |d.updates|, s.now + t.delay);
  }

  lemma AddMoves(a: real, b: real, c: real, rate: real, t: real, dt: real)
    requires Moved(a, b, rate, t) && Moved(b, c, rate, dt)
    ensures Moved(a, c, rate, t + dt)
  {
    assert rate * (t + dt) == rate * t + rate * dt;
  }

  lemma MovesFurther(cfg: Config, m: Maths, from: real, e: System, t: Timed, time: real)
    requires ValidConfig(cfg) && Bounded(cfg, e) && !e.phase.Stopping? && cfg.maxRudderRate > 0.0 && cfg.controlRate > 0.0
    requires Moved(from, e.shared.lastRudder, cfg.maxRudderRate, time)
    ensures Moved(from, Next(cfg, m, e, t).shared.lastRudder, cfg.maxRudderRate, time + StepTime(e, t))
  {
    StepMoves(cfg, m, e, t);
    AddMoves(from, e.shared.lastRudder, Next(cfg, m, e, t).shared.lastRudder, cfg.maxRudderRate, time, StepTime(e, t));
  }

  lemma {:induction false} StaysBounded(cfg: Config, m: Maths, s: System, schedule: Schedule, n: nat)
    requires ValidConfig(cfg) && n <= |schedule| && Bounded(cfg, s)
    ensures Bounded(cfg, Execute(cfg, m, s, schedule, n))
  {
    if n > 0 {
      StaysBounded(cfg, m, s, schedule, n - 1);
      KeepsBounded(cfg, m, Execute(cfg, m, s, schedule, n - 1), schedule[n - 1]);
    }
  }

  /** Main result: from any bounded state, hence from any reachable one, the rudder
      moves by at most the rate times the time accounted for, unless the loop
      disengages itself, which sets it to zero at once. */
  lemma {:induction false} RudderMovesSlowly(cfg: Config, m: Maths, s: System, schedule: Schedule, n: nat)
    requires ValidConfig(cfg) && n <= |schedule| && Bounded(cfg, s) && cfg.maxRudderRate > 0.0 && cfg.controlRate > 0.0
    requires NeverStopsItself(cfg, m, s, schedule, n)
    ensures Moved(s.shared.lastRudder, Execute(cfg, m, s, schedule, n).shared.lastRudder,
                  cfg.maxRudderRate, TotalTime(cfg, m, s, schedule, n))
  {
    if n > 0 {
      RudderMovesSlowly(cfg, m, s, schedule, n - 1);
      StaysBounded(cfg, m, s, schedule, n - 1);
      MovesFurther(cfg, m, s.shared.lastRudder, Execute(cfg, m, s, schedule, n - 1), schedule[n - 1],
        TotalTime(cfg, m, s, schedule, n - 1));
    }
  }
}
