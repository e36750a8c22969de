/** What is left of a control pass when the autopilot is switched off in its midst, and how
    long the first time step after switching on again is
    (crates/plugins/autopilot/src/lib.rs, provider.rs). */
module AutopilotPause {
  import opened Basics
  import opened Deltas
  import opened AutopilotControl
  import opened AutopilotProvider
  import opened AutopilotLoop
  import opened AutopilotDecisions
  import opened AutopilotRuns

  /** The guards a pass has to get by to command the rudder. */
  predicate WillCommand(cfg: Config, l: Local, snap: Snapshot, now: int)
    requires ValidConfig(cfg)
  {
    snap.enabled && !snap.timedOut && snap.target.Some? && !HeadingFails(cfg, l, snap, now) && InputsPresent(snap)
  }

  /** The tick the pass under way will leave behind, if its next step happens at `c`: that of
      a command already computed, or of one still to be computed from a snapshot. */
  function LateTick(cfg: Config, l: Local, p: Phase, c: int): Option<int>
    requires ValidConfig(cfg)
  {
    match p
    case Writing(_, _, at, _, _, _) => Some(at)
    case Holding(snap, _) => if WillCommand(cfg, l, snap, c) then Some(c) else None
    case _ => None
  }

  // ----- schedules that leave the timing alone -----

  /** Calls that forget the last tick on purpose. */
  predicate RestartsTiming(c: Call) {
    Disables(c) || c.SetMode? || c.CourseCurrentPoint? || c.CourseNextPoint?
  }

  ghost predicate KeepsTiming(schedule: Schedule) {
    forall t <- schedule :: t.action.Request? ==> !RestartsTiming(t.action.call)
  }

  lemma CallKeepsTiming(s: Shared, c: Call)
    requires !RestartsTiming(c)
    ensures var n := Serve(s, c).0; n.lastTick == s.lastTick && (s.enabled ==> n.enabled)
  {}

  function TimeAt(now: int, schedule: Schedule, n: nat): int
    requires n <= |schedule|
  {
    if n == 0 then now else TimeAt(now, schedule, n - 1) + schedule[n - 1].delay
  }

  /** When the loop makes its first step. */
  function FirstStep(now: int, schedule: Schedule, n: nat): Option<int>
    requires n <= |schedule|
  {
    if n == 0 then None
    else FirstOf(FirstStep(now, schedule, n - 1), schedule[n - 1], TimeAt(now, schedule, n))
  }

  /** The loop has not begun a new pass with the autopilot switched on. */
  predicate NoNewPass(cfg: Config, m: Maths, s: System, schedule: Schedule, n: nat)
    requires ValidConfig(cfg) && n <= |schedule|
  {
    n == 0
    || (NoNewPass(cfg, m, s, schedule, n - 1)
        && !BeginsPass(Execute(cfg, m, s, schedule, n - 1), schedule[n - 1]))
  }

  predicate BeginsPass(s: System, t: Timed) {
    t.action.LoopStep? && s.phase.Sleeping? && s.shared.enabled
  }

  // ----- what the pass under way leaves behind -----

  /** The last tick as it will be when the loop next sleeps. */
  function FinalTick(s: System): Option<int> {
    match s.phase
    case Writing(_, _, at, _, _, _) => Some(at)
    case Stopping(_) => None
    case _ => s.shared.lastTick
  }

  /** The pass has been taken up again and will leave `tick`. */
  predicate Leaves(s: System, tick: Option<int>) {
    FinalTick(s) == tick && (s.phase.Holding? ==> !s.phase.snap.enabled)
  }

  /** The loop has not moved. */
  predicate Unmoved(start: System, s: System) {
    s.phase == start.phase && s.local == start.local && s.shared.lastTick.None?
  }

  lemma PlanLeaves(cfg: Config, m: Maths, l: Local, snap: Snapshot, due: bool, now: int)
    requires ValidConfig(cfg)
    ensures var p := Plan(cfg, m, l, snap, due, now).1;
            && !p.Holding? && (p.Writing? <==> WillCommand(cfg, l, snap, now)) && (p.Writing? ==> p.at == now)
            && (!snap.enabled ==> p.Sleeping?)
  {
    OutcomeIff(cfg, m, l, snap, now);
    if snap.enabled && !snap.timedOut && snap.target.Some? {
      ActiveOutcomes(cfg, m, l, snap, now);
    }
  }

  /** What a loop step does to phase and last tick; `commands` tells what a computation
      comes to, `now` when it happens. */
  predicate Moves(s: System, n: System, commands: bool, now: int) {
    match s.phase
    case Sleeping =>
      n.phase.Holding? && n.phase.snap.enabled == s.shared.enabled && n.phase.snap.lastTick == s.shared.lastTick
      && n.shared.lastTick == s.shared.lastTick
    case Holding(snap, _) =>
      !n.phase.Holding? && (n.phase.Writing? <==> commands) && (n.phase.Writing? ==> n.phase.at == now)
      && (!snap.enabled ==> n.phase.Sleeping?) && n.shared.lastTick == s.shared.lastTick
    case Stopping(_) => n.phase.Emitting? && n.shared.lastTick.None?
    case Writing(_, _, at, _, _, _) => n.phase.Emitting? && n.shared.lastTick == Some(at)
    case Emitting(_, _, _) => n.phase.Sleeping? && n.shared.lastTick == s.shared.lastTick
  }

  function Commands(cfg: Config, s: System, now: int): bool
    requires ValidConfig(cfg)
  {
    s.phase.Holding? && WillCommand(cfg, s.local, s.phase.snap, now)
  }

  lemma LoopMoves(cfg: Config, m: Maths, s: System, t: Timed)
    requires ValidConfig(cfg) && t.action.LoopStep?
    ensures Moves(s, Next(cfg, m, s, t), Commands(cfg, s, s.now + t.delay), s.now + t.delay)
  {
    if s.phase.Holding? {
      PlanLeaves(cfg, m, s.local, s.phase.snap, s.phase.due, s.now + t.delay);
    }
  }

  function LateOf(p: Phase, commands: bool, c: int): Option<int> {
    match p
    case Writing(_, _, at, _, _, _) => Some(at)
    case Holding(_, _) => if commands then Some(c) else None
    case _ => None
  }

  /** The first step of the loop after the autopilot was switched off. */
  lemma FirstMove(s: System, n: System, commands: bool, now: int)
    requires Moves(s, n, commands, now) && s.shared.lastTick.None? && !(s.phase.Sleeping? && s.shared.enabled)
    ensures Leaves(n, LateOf(s.phase, commands, now))
  {}

  lemma LaterMove(s: System, n: System, commands: bool, now: int)
    requires Moves(s, n, commands, now) && !(s.phase.Sleeping? && s.shared.enabled)
    requires s.phase.Holding? ==> !s.phase.snap.enabled && !commands
    ensures Leaves(n, FinalTick(s))
  {}

  /** What one action does to the things this module looks at. */
  predicate Follows(cfg: Config, s: System, t: Timed, n: System)
    requires ValidConfig(cfg)
  {
    && n.now == s.now + t.delay
    && if t.action.LoopStep? then Moves(s, n, Commands(cfg, s, n.now), n.now)
       else n.phase == s.phase && n.local == s.local && n.shared.lastTick == s.shared.lastTick
  }

  lemma NextFollows(cfg: Config, m: Maths, s: System, t: Timed)
    requires ValidConfig(cfg) && (t.action.Request? ==> !RestartsTiming(t.action.call))
    ensures Follows(cfg, s, t, Next(cfg, m, s, t))
  {
    match t.action
    case LoopStep => LoopMoves(cfg, m, s, t);
    case Request(call) => CallKeepsTiming(s.shared, call);
    case Receive(d) => DeltaKeepsControls(s.shared, d, |d.updates|, s.now + t.delay);
  }

  /** From `start` to `e` the loop has made its first step at `c`, if any. */
  predicate Passed(cfg: Config, start: System, e: System, c: Option<int>)
    requires ValidConfig(cfg)
  {
    if c.None? then Unmoved(start, e) else Leaves(e, LateTick(cfg, start.local, start.phase, c.value))
  }

  function FirstOf(c: Option<int>, t: Timed, now: int): Option<int> {
    if c.Some? then c else if t.action.LoopStep? then Some(now) else None
  }

  lemma PassedFurther(cfg: Config, start: System, e: System, t: Timed, n: System, c: Option<int>)
    requires ValidConfig(cfg) && Passed(cfg, start, e, c) && !BeginsPass(e, t) && Follows(cfg, e, t, n)
    ensures Passed(cfg, start, n, FirstOf(c, t, n.now))
  {
    if t.action.LoopStep? {
      if c.None? {
        FirstMove(e, n, Commands(cfg, e, n.now), n.now);
      } else {
        LaterMove(e, n, Commands(cfg, e, n.now), n.now);
      }
    }
  }

  ghost predicate TraceFollows(cfg: Config, es: seq<System>, schedule: Schedule)
    requires ValidConfig(cfg) && |es| <= |schedule| + 1
  {
    forall k :: 0 <= k < |es| - 1 ==> Follows(cfg, es[k], schedule[k], es[k + 1]) && !BeginsPass(es[k], schedule[k])
  }

  lemma {:induction false} TracePasses(cfg: Config, es: seq<System>, schedule: Schedule, n: nat)
    requires ValidConfig(cfg) && n < |es| <= |schedule| + 1 && TraceFollows(cfg, es, schedule) && es[0].shared.lastTick.None?
    ensures es[n].now == TimeAt(es[0].now, schedule, n)
    ensures Passed(cfg, es[0], es[n], FirstStep(es[0].now, schedule, n))
  {
    if n > 0 {
      TracePasses(cfg, es, schedule, n - 1);
      assert Follows(cfg, es[n - 1], schedule[n - 1], es[n]);
      PassedFurther(cfg, es[0], es[n - 1], schedule[n - 1], es[n], FirstStep(es[0].now, schedule, n - 1));
    }
  }

  lemma {:induction false} NoPassBegins(cfg: Config, m: Maths, s: System, schedule: Schedule, n: nat, k: nat)
    requires ValidConfig(cfg) && k < n <= |schedule| && NoNewPass(cfg, m, s, schedule, n)
    ensures !BeginsPass(Execute(cfg, m, s, schedule, k), schedule[k])
  {
    if k < n - 1 {
      NoPassBegins(cfg, m, s, schedule, n - 1, k);
    }
  }

  lemma PassLeaves(cfg: Config, m: Maths, s: System, schedule: Schedule, n: nat)
    requires ValidConfig(cfg) && n <= |schedule| && s.shared.lastTick.None?
    requires KeepsTiming(schedule) && NoNewPass(cfg, m, s, schedule, n)
    ensures Passed(cfg, s, Execute(cfg, m, s, schedule, n), FirstStep(s.now, schedule, n))
  {
    var es := Trace(cfg, m, s, schedule, n);
    forall k | 0 <= k < n ensures Follows(cfg, es[k], schedule[k], es[k + 1]) && !BeginsPass(es[k], schedule[k]) {
      assert schedule[k] in schedule;
      NextFollows(cfg, m, es[k], schedule[k]);
      NoPassBegins(cfg, m, s, schedule, n, k);
    }
    TracePasses(cfg, es, schedule, n);
  }

  function SwitchedOff(cfg: Config, m: Maths, s: System): System
    requires ValidConfig(cfg)
  {
    Next(cfg, m, s, Timed(0, Request(Disengage)))
  }

  /** The tick left behind by a pass that was under way when the autopilot was switched off. */
  function LeftBehind(cfg: Config, s: System, schedule: Schedule): Option<int>
    requires ValidConfig(cfg)
  {
    var c := FirstStep(s.now, schedule, |schedule|);
    if c.None? then None else LateTick(cfg, s.local, s.phase, c.value)
  }

  /** Main result. Disengaging is meant to forget the last tick. Under any schedule of
      loop steps, sensor deltas and calls that leave the timing alone, once the loop sleeps
      and as long as no new pass has begun while on, the last tick is forgotten exactly if the
      pass under way was not going to command the rudder; otherwise it is that command's. */
  lemma DisengageForgetsTickIffNothingSteers(cfg: Config, m: Maths, s: System, schedule: Schedule)
    requires ValidConfig(cfg) && KeepsTiming(schedule)
    ensures var off := SwitchedOff(cfg, m, s);
            var e := Execute(cfg, m, off, schedule, |schedule|);
            NoNewPass(cfg, m, off, schedule, |schedule|) && e.phase.Sleeping? ==> e.shared.lastTick == LeftBehind(cfg, s, schedule)
  {
    CallEffects(s.shared, Disengage);
    if NoNewPass(cfg, m, SwitchedOff(cfg, m, s), schedule, |schedule|) {
      PassLeaves(cfg, m, SwitchedOff(cfg, m, s), schedule, |schedule|);
    }
  }

  /** Main result: when the autopilot has been switched on again by then, the next pass starts
      from that tick. Its time step is the nominal one exactly in the first case; in the
      other it is the whole time since the late command, however long the pause was. */
  lemma PauseBecomesTimeStep(cfg: Config, m: Maths, s: System, schedule: Schedule, delay: nat, p: int)
    requires ValidConfig(cfg) && KeepsTiming(schedule)
    ensures var off := SwitchedOff(cfg, m, s);
            var e := Execute(cfg, m, off, schedule, |schedule|);
            var woken := Next(cfg, m, e, Timed(delay, LoopStep));
            NoNewPass(cfg, m, off, schedule, |schedule|) && e.phase.Sleeping? && e.shared.enabled ==>
              && woken.phase.Holding? && woken.phase.snap.enabled
              && TimeStep(cfg, woken.phase.snap.lastTick, p)
                 == match LeftBehind(cfg, s, schedule)
                    case None => 1.0 / cfg.controlRate
                    case Some(at) => Max(Seconds(at, p), 0.001)
  {
    DisengageForgetsTickIffNothingSteers(cfg, m, s, schedule);
  }

  // ----- what a long step does to the rate limit -----

  /** The rate limit never binds, whatever the controller asks for. */
  ghost predicate Unlimited(cfg: Config, last: real, dt: real)
    requires ValidConfig(cfg)
  {
    forall raw :: Command(cfg, last, raw, dt) == Clamp(raw, -cfg.gains.maxRudder, cfg.gains.maxRudder)
  }

  /** Exactly if the step is long enough to cross from the present rudder to the far stop. */
  lemma UnlimitedIffStepIsLong(cfg: Config, last: real, dt: real)
    requires ValidConfig(cfg) && Abs(last) <= cfg.gains.maxRudder && 0.0 < cfg.maxRudderRate && 0.0 < dt
    ensures Unlimited(cfg, last, dt) <==> cfg.gains.maxRudder + Abs(last) <= cfg.maxRudderRate * dt
  {
    var most := cfg.gains.maxRudder;
    forall raw ensures Command(cfg, last, raw, dt) == Clamp(raw, -most, most)
                       <==> Abs(Clamp(raw, -most, most) - last) <= cfg.maxRudderRate * dt {
      RateLimitBounds(last, Clamp(raw, -most, most), cfg.maxRudderRate, dt);
    }
    if Unlimited(cfg, last, dt) {
      var far := if last >= 0.0 then -most else most;
      assert Command(cfg, last, far, dt) == Clamp(far, -most, most);
    }
  }
}
