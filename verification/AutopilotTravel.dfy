/** How far the rudder moves, in clock time: the time steps the control loop accounts for
    telescope (crates/plugins/autopilot/src/lib.rs). */
module AutopilotTravel {
  import opened Basics
  import opened Deltas
  import opened AutopilotControl
  import opened AutopilotProvider
  import opened AutopilotLoop
  import opened AutopilotDecisions
  import opened AutopilotRuns

  /** The instant of the latest command computed, how many there were, and how many of
      them had no last tick to measure from. */
  datatype Ledger = Ledger(upto: int, commands: nat, nominal: nat)

  function StartOf(s: System): int {
    if s.shared.lastTick.Some? then s.shared.lastTick.value else s.now
  }

  function LedgerStep(l: Ledger, s: System, t: Timed, next: System): Ledger {
    if t.action.LoopStep? && s.phase.Holding? && next.phase.Writing?
    then Ledger(next.phase.at, l.commands + 1, l.nominal + if s.phase.snap.lastTick.None? then 1 else 0)
    else l
  }

  function LedgerAt(cfg: Config, m: Maths, s: System, schedule: Schedule, n: nat): Ledger
    requires ValidConfig(cfg) && n <= |schedule|
  {
    if n == 0 then Ledger(StartOf(s), 0, 0)
    else LedgerStep(LedgerAt(cfg, m, s, schedule, n - 1), Execute(cfg, m, s, schedule, n - 1), schedule[n - 1],
                    Execute(cfg, m, s, schedule, n))
  }

  /** The step of a command computed but not yet written back. */
  function Pending(p: Phase): real {
    if p.Writing? then p.dt else 0.0
  }

  function Elapsed(a: int, b: int): real {
    (b - a) as real / SECOND as real
  }

  /** One millisecond per command, one nominal step per command without a last tick. */
  function Allowance(cfg: Config, l: Ledger): real
    requires ValidConfig(cfg)
  {
    0.001 * l.commands as real + l.nominal as real * (1.0 / cfg.controlRate)
  }

  /** Clock time since `start`, and the allowance. */
  function ClockTime(cfg: Config, start: int, now: int, l: Ledger): real
    requires ValidConfig(cfg)
  {
    Elapsed(start, now) + Allowance(cfg, l)
  }

  predicate MeasuredFrom(tick: Option<int>, upto: int) {
    tick.Some? ==> tick.value == upto
  }

  /** Where the loop measures its next step from. */
  predicate Synchronized(s: System, l: Ledger) {
    && l.upto <= s.now
    && match s.phase
       case Writing(_, _, at, _, _, _) => at == l.upto
       case Holding(snap, _) => MeasuredFrom(snap.lastTick, l.upto) && MeasuredFrom(s.shared.lastTick, l.upto)
       case _ => MeasuredFrom(s.shared.lastTick, l.upto)
  }

  predicate WithinClock(cfg: Config, start: int, s: System, total: real, l: Ledger)
    requires ValidConfig(cfg)
  {
    total + Pending(s.phase) <= ClockTime(cfg, start, l.upto, l)
  }

  lemma StepIsElapsed(cfg: Config, last: Option<int>, upto: int, now: int)
    requires ValidConfig(cfg) && MeasuredFrom(last, upto) && upto <= now
    ensures 0.0 <= Elapsed(upto, now)
    ensures TimeStep(cfg, last, now) <= Elapsed(upto, now) + 0.001 + if last.None? then 1.0 / cfg.controlRate else 0.0
  {}

  lemma ElapsedAdds(a: int, b: int, c: int)
    ensures Elapsed(a, b) + Elapsed(b, c) == Elapsed(a, c)
  {
    assert (b - a) as real + (c - b) as real == (c - a) as real;
  }

  lemma AllowanceGrows(cfg: Config, l: Ledger, upto: int, nominal: bool)
    requires ValidConfig(cfg)
    ensures Allowance(cfg, Ledger(upto, l.commands + 1, l.nominal + if nominal then 1 else 0))
         == Allowance(cfg, l) + 0.001 + if nominal then 1.0 / cfg.controlRate else 0.0
  {
    var x := 1.0 / cfg.controlRate;
    assert (l.nominal + 1) as real * x == l.nominal as real * x + x;
  }

  lemma PlanTimes(cfg: Config, m: Maths, l: Local, snap: Snapshot, due: bool, now: int)
    requires ValidConfig(cfg)
    ensures var p := Plan(cfg, m, l, snap, due, now).1;
            !p.Holding? && (p.Writing? ==> p.at == now && p.dt == TimeStep(cfg, snap.lastTick, now))
  {
    if snap.enabled && !snap.timedOut && snap.target.Some? {
      ActiveOutcomes(cfg, m, l, snap, now);
    }
  }

  /** A step measured from the last account extends it to the present. */
  lemma StepExtends(cfg: Config, start: int, total: real, l: Ledger, tick: Option<int>, now: int)
    requires ValidConfig(cfg) && MeasuredFrom(tick, l.upto) && l.upto <= now
    requires total <= Elapsed(start, l.upto) + Allowance(cfg, l)
    ensures total + TimeStep(cfg, tick, now)
         <= Elapsed(start, now) + Allowance(cfg, Ledger(now, l.commands + 1, l.nominal + if tick.None? then 1 else 0))
  {
    StepIsElapsed(cfg, tick, l.upto, now);
    ElapsedAdds(start, l.upto, now);
    AllowanceGrows(cfg, l, now, tick.None?);
  }

  /** `n` follows `s` by a computation. */
  predicate Computes(cfg: Config, s: System, n: System)
    requires ValidConfig(cfg) && s.phase.Holding?
  {
    && s.now <= n.now && n.shared == s.shared && !n.phase.Holding?
    && (n.phase.Writing? ==> n.phase.at == n.now && n.phase.dt == TimeStep(cfg, s.phase.snap.lastTick, n.now))
  }

  lemma NextComputes(cfg: Config, m: Maths, s: System, t: Timed)
    requires ValidConfig(cfg) && t.action.LoopStep? && s.phase.Holding?
    ensures Computes(cfg, s, Next(cfg, m, s, t))
  {
    PlanTimes(cfg, m, s.local, s.phase.snap, s.phase.due, s.now + t.delay);
  }

  lemma CommandWithinClock(cfg: Config, start: int, s: System, t: Timed, n: System, total: real, l: Ledger)
    requires ValidConfig(cfg) && t.action.LoopStep? && s.phase.Holding? && Computes(cfg, s, n)
    requires Synchronized(s, l) && WithinClock(cfg, start, s, total, l)
    ensures Synchronized(n, LedgerStep(l, s, t, n)) && WithinClock(cfg, start, n, total, LedgerStep(l, s, t, n))
  {
    StepExtends(cfg, start, total, l, s.phase.snap.lastTick, n.now);
  }

  lemma OtherStepWithinClock(cfg: Config, m: Maths, start: int, s: System, t: Timed, total: real, l: Ledger)
    requires ValidConfig(cfg) && !(t.action.LoopStep? && s.phase.Holding?)
    requires Synchronized(s, l) && WithinClock(cfg, start, s, total, l)
    ensures var next := Next(cfg, m, s, t);
            && LedgerStep(l, s, t, next) == l && Synchronized(next, l)
            && WithinClock(cfg, start, next, total + StepTime(s, t), l)
  {
    match t.action
    case LoopStep =>
    case Request(call) => CallEffects(s.shared, call);
    case Receive(d) => DeltaKeepsControls(s.shared, d, |d.updates|, s.now + t.delay);
  }

  lemma StepWithinClock(cfg: Config, m: Maths, start: int, s: System, t: Timed, total: real, l: Ledger)
    requires ValidConfig(cfg) && Synchronized(s, l) && WithinClock(cfg, start, s, total, l)
    ensures var next := Next(cfg, m, s, t);
            && Synchronized(next, LedgerStep(l, s, t, next))
            && WithinClock(cfg, start, next, total + StepTime(s, t), LedgerStep(l, s, t, next))
  {
    if t.action.LoopStep? && s.phase.Holding? {
      NextComputes(cfg, m, s, t);
      CommandWithinClock(cfg, start, s, t, Next(cfg, m, s, t), total, l);
    } else {
      OtherStepWithinClock(cfg, m, start, s, t, total, l);
    }
  }

  lemma {:induction false} AlwaysWithinClock(cfg: Config, m: Maths, s: System, schedule: Schedule, n: nat)
    requires ValidConfig(cfg) && n <= |schedule| && s.phase.Sleeping? && StartOf(s) <= s.now
    ensures var e, l := Execute(cfg, m, s, schedule, n), LedgerAt(cfg, m, s, schedule, n);
            Synchronized(e, l) && WithinClock(cfg, StartOf(s), e, TotalTime(cfg, m, s, schedule, n), l)
  {
    if n > 0 {
      AlwaysWithinClock(cfg, m, s, schedule, n - 1);
      StepWithinClock(cfg, m, StartOf(s), Execute(cfg, m, s, schedule, n - 1), schedule[n - 1],
        TotalTime(cfg, m, s, schedule, n - 1), LedgerAt(cfg, m, s, schedule, n - 1));
    } else {
      assert Elapsed(StartOf(s), StartOf(s)) == 0.0;
    }
  }

  lemma LongerMove(from: real, to: real, rate: real, total: real, time: real)
    requires Moved(from, to, rate, total) && 0.0 < rate && total <= time
    ensures Moved(from, to, rate, time)
  {
    assert 0.0 <= rate * (time - total) == rate * time - rate * total;
  }

  lemma PendingIsPositive(cfg: Config, s: System)
    requires Bounded(cfg, s) && cfg.controlRate > 0.0
    ensures 0.0 <= Pending(s.phase)
  {}

  /** The clock bound on the time accounted for, up to the present. */
  lemma TotalWithinClock(cfg: Config, start: int, e: System, total: real, l: Ledger)
    requires ValidConfig(cfg) && Bounded(cfg, e) && cfg.controlRate > 0.0
    requires Synchronized(e, l) && WithinClock(cfg, start, e, total, l)
    ensures total <= ClockTime(cfg, start, e.now, l)
  {
    PendingIsPositive(cfg, e);
    ElapsedAdds(start, l.upto, e.now);
  }

  lemma MoveWithinClock(cfg: Config, from: real, start: int, e: System, total: real, l: Ledger)
    requires ValidConfig(cfg) && Bounded(cfg, e) && cfg.controlRate > 0.0 && cfg.maxRudderRate > 0.0
    requires Synchronized(e, l) && WithinClock(cfg, start, e, total, l)
    requires Moved(from, e.shared.lastRudder, cfg.maxRudderRate, total)
    ensures Moved(from, e.shared.lastRudder, cfg.maxRudderRate, ClockTime(cfg, start, e.now, l))
  {
    TotalWithinClock(cfg, start, e, total, l);
    LongerMove(from, e.shared.lastRudder, cfg.maxRudderRate, total, ClockTime(cfg, start, e.now, l));
  }

  /** Main result: between two states without a self-disengagement, the first with the loop
      asleep, the rudder moves by at most the rate times the clock time since the last tick
      before, plus a millisecond per command and a nominal step per restart of the timing. */
  lemma RudderMovesWithClock(cfg: Config, m: Maths, s: System, schedule: Schedule, n: nat)
    requires ValidConfig(cfg) && n <= |schedule| && Bounded(cfg, s) && cfg.maxRudderRate > 0.0 && cfg.controlRate > 0.0
    requires NeverStopsItself(cfg, m, s, schedule, n) && s.phase.Sleeping? && StartOf(s) <= s.now
    ensures var e := Execute(cfg, m, s, schedule, n);
            Moved(s.shared.lastRudder, e.shared.lastRudder, cfg.maxRudderRate,
                  ClockTime(cfg, StartOf(s), e.now, LedgerAt(cfg, m, s, schedule, n)))
  {
    RudderMovesSlowly(cfg, m, s, schedule, n);
    AlwaysWithinClock(cfg, m, s, schedule, n);
    StaysBounded(cfg, m, s, schedule, n);
    MoveWithinClock(cfg, s.shared.lastRudder, StartOf(s), Execute(cfg, m, s, schedule, n),
      TotalTime(cfg, m, s, schedule, n), LedgerAt(cfg, m, s, schedule, n));
  }
}
