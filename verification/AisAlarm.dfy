/** The collision alarm latch: the computation task works on a snapshot of the
    targets while delta callbacks go on changing them
    (crates/plugins/ais-status/src/lib.rs). */
module AisAlarm {
  import opened Basics
  import opened JsonModel
  import opened AisTracker
  import opened AisRuns
  import Cpa

  /** The shared tracker and what the current computation round has still to look at. */
  datatype Machine = Machine(targets: Targets, pending: seq<CpaSnapshot>)

  /** Horizon in seconds and distances in metres. */
  datatype Limits = Limits(tcpaMax: real, warn: Option<real>, alarm: Option<real>)

  datatype AlarmEvent = Raised(level: Cpa.Level) | Cleared

  datatype Action =
    | Hear(context: string, values: seq<(string, Json)>, now: nat)
    | TickNow(now: nat)
    | Begin(snaps: seq<CpaSnapshot>)
    | Examine(reading: Option<(real, Cpa.Tcpa)>)

  /** Delta callbacks run at any time; ticking, taking a snapshot and examining it
      are steps of one task. */
  ghost predicate Enabled(m: Machine, a: Action) {
    match a
    case Hear(_, _, _) => true
    case TickNow(_) => m.pending == []
    case Begin(snaps) => m.pending == [] && ListsCandidates(m.targets, snaps)
    case Examine(_) => m.pending != []
  }

  function LevelOf(limits: Limits, reading: (real, Cpa.Tcpa)): Option<Cpa.Level> {
    Cpa.Classify(reading.0, reading.1, limits.tcpaMax, limits.warn, limits.alarm)
  }

  function Next(setup: Setup, limits: Limits, m: Machine, a: Action): Machine {
    match a
    case Hear(context, values, now) => m.(targets := Apply(setup, m.targets, Message(context, values, now)))
    case TickNow(now) => m.(targets := Apply(setup, m.targets, TickAt(now)))
    case Begin(snaps) => m.(pending := snaps)
    case Examine(reading) =>
      if m.pending == [] then m
      else if reading.None? then m.(pending := m.pending[1..])
      else Machine(SetAlarm(m.targets, m.pending[0].mmsi, LevelOf(limits, reading.value).Some?), m.pending[1..])
  }

  /** The notification an action causes for a target: on a change against the snapshot. */
  function Notified(limits: Limits, m: Machine, a: Action, mmsi: string): seq<AlarmEvent> {
    if a.Examine? && a.reading.Some? && m.pending != [] && m.pending[0].mmsi == mmsi then
      var level := LevelOf(limits, a.reading.value);
      if level.Some? == m.pending[0].alarmActive then []
      else if level.Some? then [Raised(level.value)]
      else [Cleared]
    else []
  }

  function Reach(setup: Setup, limits: Limits, actions: seq<Action>): Machine {
    if actions == [] then Machine(map[], [])
    else Next(setup, limits, Reach(setup, limits, actions[..|actions| - 1]), actions[|actions| - 1])
  }

  ghost predicate Legal(setup: Setup, limits: Limits, actions: seq<Action>) {
    actions == []
    || (Legal(setup, limits, actions[..|actions| - 1])
        && Enabled(Reach(setup, limits, actions[..|actions| - 1]), actions[|actions| - 1]))
  }

  /** All notifications about a target, over all its lifetimes. */
  function AlarmLog(setup: Setup, limits: Limits, actions: seq<Action>, mmsi: string): seq<AlarmEvent> {
    if actions == [] then []
    else
      var before := actions[..|actions| - 1];
      AlarmLog(setup, limits, before, mmsi)
      + Notified(limits, Reach(setup, limits, before), actions[|actions| - 1], mmsi)
  }

  /** The notifications of the target's present lifetime. */
  function LifeLog(setup: Setup, limits: Limits, actions: seq<Action>, mmsi: string): seq<AlarmEvent> {
    if actions == [] || mmsi !in Reach(setup, limits, actions).targets then []
    else
      var before := actions[..|actions| - 1];
      LifeLog(setup, limits, before, mmsi)
      + Notified(limits, Reach(setup, limits, before), actions[|actions| - 1], mmsi)
  }

  ghost predicate RaiseClear(log: seq<AlarmEvent>) {
    forall i :: 0 <= i < |log| ==> (log[i].Raised? <==> i % 2 == 0)
  }

  predicate EndsRaised(log: seq<AlarmEvent>) {
    log != [] && log[|log| - 1].Raised?
  }

  predicate Latched(ts: Targets, mmsi: string) {
    mmsi in ts && ts[mmsi].alarmActive
  }

  // ----- snapshots stay accurate -----

  /** What is still to be examined agrees with the live latches. */
  ghost predicate PendingAccurate(m: Machine) {
    && (forall i :: 0 <= i < |m.pending| ==>
          m.pending[i].mmsi in m.targets && m.targets[m.pending[i].mmsi].alarmActive == m.pending[i].alarmActive)
    && (forall i, j :: 0 <= i < j < |m.pending| ==> m.pending[i].mmsi != m.pending[j].mmsi)
  }

  lemma HearingKeepsLatch(setup: Setup, ts: Targets, e: Event, mmsi: string)
    requires e.Message?
    ensures var next := Apply(setup, ts, e);
            (mmsi in ts ==> mmsi in next && next[mmsi].alarmActive == ts[mmsi].alarmActive)
            && (mmsi !in ts && mmsi in next ==> !next[mmsi].alarmActive)
  {
    ApplyIsPointwise(setup, ts, e, mmsi);
    if Hears(setup, e, mmsi) {
      var start := if mmsi in ts then ts[mmsi] else NewTarget(mmsi, e.context, e.now, setup.config);
      TakeValuesKeepsLifecycle(start, e.values);
    }
  }

  lemma NextKeepsPending(setup: Setup, limits: Limits, m: Machine, a: Action)
    requires PendingAccurate(m) && Enabled(m, a)
    ensures PendingAccurate(Next(setup, limits, m, a))
  {
    if a.Hear? {
      forall i | 0 <= i < |m.pending|
        ensures var next := Apply(setup, m.targets, Message(a.context, a.values, a.now)); var k := m.pending[i].mmsi;
                k in next && next[k].alarmActive == m.pending[i].alarmActive
      {
        HearingKeepsLatch(setup, m.targets, Message(a.context, a.values, a.now), m.pending[i].mmsi);
      }
    }
  }

  lemma {:induction false} AlwaysAccurate(setup: Setup, limits: Limits, actions: seq<Action>)
    requires Legal(setup, limits, actions)
    ensures PendingAccurate(Reach(setup, limits, actions))
  {
    if actions != [] {
      var before := actions[..|actions| - 1];
      AlwaysAccurate(setup, limits, before);
      NextKeepsPending(setup, limits, Reach(setup, limits, before), actions[|actions| - 1]);
    }
  }

  // ----- one lifetime -----

  /** A log that alternates and ends raised exactly while the latch is set. */
  ghost predicate LogMatchesLatch(ts: Targets, mmsi: string, log: seq<AlarmEvent>) {
    RaiseClear(log) && (EndsRaised(log) <==> Latched(ts, mmsi))
  }

  /** Every action but the removal of a latched target keeps log and latch together. */
  lemma NextKeepsLog(setup: Setup, limits: Limits, m: Machine, a: Action, mmsi: string, log: seq<AlarmEvent>)
    requires PendingAccurate(m) && Enabled(m, a) && LogMatchesLatch(m.targets, mmsi, log)
    ensures var next, log' := Next(setup, limits, m, a).targets, log + Notified(limits, m, a, mmsi);
            LogMatchesLatch(next, mmsi, log') <==> !(a.TickNow? && Latched(m.targets, mmsi) && mmsi !in next)
    ensures mmsi in m.targets && mmsi !in Next(setup, limits, m, a).targets ==> a.TickNow?
  {
    assert log + [] == log;
    match a
    case Hear(context, values, now) => HearingKeepsLatch(setup, m.targets, Message(context, values, now), mmsi);
    case TickNow(now) => ApplyIsPointwise(setup, m.targets, TickAt(now), mmsi);
    case Begin(_) =>
    case Examine(reading) =>
  }

  /** Main result: within one lifetime of a target, raised and cleared notifications
      strictly alternate starting with a raise and the latch shows the last of them,
      although callbacks run between taking a snapshot and acting on it. */
  lemma {:induction false} LifetimeAlternates(setup: Setup, limits: Limits, actions: seq<Action>, mmsi: string)
    requires Legal(setup, limits, actions)
    ensures LogMatchesLatch(Reach(setup, limits, actions).targets, mmsi, LifeLog(setup, limits, actions, mmsi))
  {
    if actions != [] {
      var before, a := actions[..|actions| - 1], actions[|actions| - 1];
      AlwaysAccurate(setup, limits, before);
      LifetimeAlternates(setup, limits, before, mmsi);
      NextKeepsLog(setup, limits, Reach(setup, limits, before), a, mmsi, LifeLog(setup, limits, before, mmsi));
    }
  }

  // ----- all lifetimes -----

  /** The action removes a target whose latch is set. */
  ghost predicate DropsLatched(m: Machine, a: Action, mmsi: string) {
    a.TickNow? && Latched(m.targets, mmsi) && Expires(m.targets[mmsi], a.now)
  }

  ghost predicate NeverDropsLatched(setup: Setup, limits: Limits, actions: seq<Action>, mmsi: string) {
    actions == []
    || (NeverDropsLatched(setup, limits, actions[..|actions| - 1], mmsi)
        && !DropsLatched(Reach(setup, limits, actions[..|actions| - 1]), actions[|actions| - 1], mmsi))
  }

  /** After every action so far, log and latch belonged together. */
  ghost predicate MatchesThroughout(setup: Setup, limits: Limits, actions: seq<Action>, mmsi: string) {
    && (actions == [] || MatchesThroughout(setup, limits, actions[..|actions| - 1], mmsi))
    && LogMatchesLatch(Reach(setup, limits, actions).targets, mmsi, AlarmLog(setup, limits, actions, mmsi))
  }

  lemma DropIsRemoval(setup: Setup, limits: Limits, m: Machine, a: Action, mmsi: string)
    ensures DropsLatched(m, a, mmsi)
       <==> a.TickNow? && Latched(m.targets, mmsi) && mmsi !in Next(setup, limits, m, a).targets
  {
    if a.TickNow? {
      ApplyIsPointwise(setup, m.targets, TickAt(a.now), mmsi);
    }
  }

  /** Over all lifetimes the notifications follow the latch throughout a run exactly
      if no tick removes a target whose latch is set: removal sends no clear. */
  lemma {:induction false} AllLifetimesMatchIffNoneDropped(setup: Setup, limits: Limits, actions: seq<Action>, mmsi: string)
    requires Legal(setup, limits, actions)
    ensures MatchesThroughout(setup, limits, actions, mmsi) <==> NeverDropsLatched(setup, limits, actions, mmsi)
  {
    if actions != [] {
      var before, a := actions[..|actions| - 1], actions[|actions| - 1];
      AllLifetimesMatchIffNoneDropped(setup, limits, before, mmsi);
      AlwaysAccurate(setup, limits, before);
      var m := Reach(setup, limits, before);
      DropIsRemoval(setup, limits, m, a, mmsi);
      if MatchesThroughout(setup, limits, before, mmsi) {
        NextKeepsLog(setup, limits, m, a, mmsi, AlarmLog(setup, limits, before, mmsi));
      }
    }
  }

  // ----- after a target was removed with its latch set -----

  /** While its latch is clear, the only notification a target can get is a raise. */
  lemma OnlyRaisesWhileClear(setup: Setup, limits: Limits, m: Machine, a: Action, mmsi: string)
    requires PendingAccurate(m) && Enabled(m, a) && !Latched(m.targets, mmsi)
    ensures var notified := Notified(limits, m, a, mmsi);
            if notified == [] then !Latched(Next(setup, limits, m, a).targets, mmsi) else |notified| == 1 && notified[0].Raised?
  {
    match a
    case Hear(context, values, now) => HearingKeepsLatch(setup, m.targets, Message(context, values, now), mmsi);
    case TickNow(now) => ApplyIsPointwise(setup, m.targets, TickAt(now), mmsi);
    case Begin(_) =>
    case Examine(_) =>
  }

  lemma OneActionMore(setup: Setup, limits: Limits, actions: seq<Action>, a: Action, mmsi: string)
    ensures var m := Reach(setup, limits, actions);
            && Reach(setup, limits, actions + [a]) == Next(setup, limits, m, a)
            && (Legal(setup, limits, actions + [a]) <==> Legal(setup, limits, actions) && Enabled(m, a))
            && AlarmLog(setup, limits, actions + [a], mmsi) == AlarmLog(setup, limits, actions, mmsi) + Notified(limits, m, a, mmsi)
  {
    assert (actions + [a])[..|actions|] == actions;
  }

  /** Right after the removal: the log ends with a raise, the latch is clear. */
  lemma DropLeavesRaise(setup: Setup, limits: Limits, actions: seq<Action>, a: Action, mmsi: string)
    requires Legal(setup, limits, actions) && NeverDropsLatched(setup, limits, actions, mmsi)
    requires DropsLatched(Reach(setup, limits, actions), a, mmsi)
    ensures AlarmLog(setup, limits, actions + [a], mmsi) == AlarmLog(setup, limits, actions, mmsi)
    ensures EndsRaised(AlarmLog(setup, limits, actions, mmsi))
    ensures !Latched(Reach(setup, limits, actions + [a]).targets, mmsi)
  {
    OneActionMore(setup, limits, actions, a, mmsi);
    DropIsRemoval(setup, limits, Reach(setup, limits, actions), a, mmsi);
    AllLifetimesMatchIffNoneDropped(setup, limits, actions, mmsi);
    var log := AlarmLog(setup, limits, actions, mmsi);
    assert log + [] == log;
  }

  /** Main result: once a tick has removed a target whose latch was set, the next
      notification about it, whenever it comes and whatever happens in between, is a
      second raise; no clear separates it from the one before the removal. */
  lemma {:induction false} RaiseAfterDrop(setup: Setup, limits: Limits, actions: seq<Action>, a: Action, more: seq<Action>, mmsi: string)
    requires Legal(setup, limits, actions + [a] + more) && NeverDropsLatched(setup, limits, actions, mmsi)
    requires DropsLatched(Reach(setup, limits, actions), a, mmsi)
    ensures var log, all := AlarmLog(setup, limits, actions, mmsi), AlarmLog(setup, limits, actions + [a] + more, mmsi);
            && EndsRaised(log) && log <= all
            && (if |all| == |log| then !Latched(Reach(setup, limits, actions + [a] + more).targets, mmsi) else all[|log|].Raised?)
  {
    if more == [] {
      assert actions + [a] + more == actions + [a];
      OneActionMore(setup, limits, actions, a, mmsi);
      DropLeavesRaise(setup, limits, actions, a, mmsi);
    } else {
      var before, b := actions + [a] + more[..|more| - 1], more[|more| - 1];
      assert actions + [a] + more == before + [b];
      OneActionMore(setup, limits, before, b, mmsi);
      RaiseAfterDrop(setup, limits, actions, a, more[..|more| - 1], mmsi);
      AlwaysAccurate(setup, limits, before);
      if |AlarmLog(setup, limits, before, mmsi)| == |AlarmLog(setup, limits, actions, mmsi)| {
        OnlyRaisesWhileClear(setup, limits, Reach(setup, limits, before), b, mmsi);
      }
    }
  }

  // ----- such a removal happens -----

  const BUOY := "970000001"
  const BUOY_CONTEXT := MMSI_CONTEXT + BUOY
  const DEFAULTS := Setup("self", Config(None, None, None, None))
  const NEAR := Limits(10.0, None, Some(1.0))
  const HERE: seq<(string, Json)> := [("navigation.position", Obj(map["latitude" := Num(0.0), "longitude" := Num(0.0)]))]
  const COLLISION := (0.0, Cpa.Finite(1.0))

  /** An aid to navigation heard once, at `t`. */
  function BuoyAt(t: nat, status: Status, alarm: bool): Target {
    Target(BUOY, BUOY_CONTEXT, ThresholdsFor(Aton, DEFAULTS.config), status, t, 1, [t], Some((0.0, 0.0)), None, None, alarm)
  }

  function Only(t: nat, status: Status, alarm: bool, pending: seq<CpaSnapshot>): Machine {
    Machine(map[BUOY := BuoyAt(t, status, alarm)], pending)
  }

  lemma BuoyAddressed()
    ensures Addressed(BUOY_CONTEXT, DEFAULTS.selfUri) == Some(BUOY) && ClassifyMmsi(BUOY) == Aton
  {
    assert BUOY_CONTEXT[|BUOY_CONTEXT| - 1] == '1' && "self"[3] == 'f';
    assert BUOY_CONTEXT[|BUOY_CONTEXT| - 4..][3] == '1';
    assert BUOY_CONTEXT[|MMSI_CONTEXT|..] == BUOY;
    assert |BUOY_CONTEXT| == |MMSI_CONTEXT| + |BUOY|;
  }

  lemma BuoyHeard(t: nat)
    ensures Next(DEFAULTS, NEAR, Machine(map[], []), Hear(BUOY_CONTEXT, HERE, t)) == Only(t, Tracking, false, [])
  {
    BuoyAddressed();
    var start := NewTarget(BUOY, BUOY_CONTEXT, t, DEFAULTS.config);
    assert HERE[..0] == [];
    assert TakeValues(start, HERE) == TakeValue(TakeValues(start, HERE[..0]), HERE[0].0, HERE[0].1);
    assert TakeValues(start, HERE) == start.(position := Some((0.0, 0.0)));
    assert [] + [t] == [t] && [t][..0] == [];
    assert Since([t], WindowStart(t, start.thresholds.confirmWindow)) == [t];
  }

  /** A raise: a snapshot is taken and the collision found. */
  lemma BuoyRaised(t: nat)
    ensures var snap := SnapshotOf(BuoyAt(t, Tracking, false)); var m := Only(t, Tracking, false, []);
            && Enabled(m, Begin([snap])) && Next(DEFAULTS, NEAR, m, Begin([snap])) == Only(t, Tracking, false, [snap])
            && Enabled(Only(t, Tracking, false, [snap]), Examine(Some(COLLISION)))
            && Next(DEFAULTS, NEAR, Only(t, Tracking, false, [snap]), Examine(Some(COLLISION))) == Only(t, Tracking, true, [])
            && Notified(NEAR, Only(t, Tracking, false, [snap]), Examine(Some(COLLISION)), BUOY) == [Raised(Cpa.Alarm)]
            && Notified(NEAR, m, Begin([snap]), BUOY) == []
  {
    var snap, m := SnapshotOf(BuoyAt(t, Tracking, false)), Only(t, Tracking, false, []);
    assert ListsCandidates(m.targets, [snap]) by {
      assert [snap][0].mmsi == BUOY;
    }
    assert [snap][1..] == [];
  }

  lemma BuoyLostAndRemoved(t: nat)
    ensures Next(DEFAULTS, NEAR, Only(t, Tracking, true, []), TickNow(t + 901 * SECOND)) == Only(t, Lost, true, [])
    ensures DropsLatched(Only(t, Lost, true, []), TickNow(t + 4501 * SECOND), BUOY)
    ensures Next(DEFAULTS, NEAR, Only(t, Lost, true, []), TickNow(t + 4501 * SECOND)) == Machine(map[], [])
  {
    assert ThresholdsFor(Aton, DEFAULTS.config) == Thresholds(1, 180 * SECOND, 900 * SECOND, 3600 * SECOND);
  }

  /** After these actions the machine and the log are as given. */
  ghost predicate At(actions: seq<Action>, m: Machine, log: seq<AlarmEvent>) {
    && Legal(DEFAULTS, NEAR, actions) && Reach(DEFAULTS, NEAR, actions) == m
    && AlarmLog(DEFAULTS, NEAR, actions, BUOY) == log
  }

  lemma Then(actions: seq<Action>, m: Machine, log: seq<AlarmEvent>, a: Action)
    requires At(actions, m, log) && Enabled(m, a)
    ensures At(actions + [a], Next(DEFAULTS, NEAR, m, a), log + Notified(NEAR, m, a, BUOY))
  {
    OneActionMore(DEFAULTS, NEAR, actions, a, BUOY);
  }

  /** Then the buoy is heard at `t` and found on a collision course. */
  function AndAlarm(actions: seq<Action>, t: nat): seq<Action> {
    actions + [Hear(BUOY_CONTEXT, HERE, t)] + [Begin([SnapshotOf(BuoyAt(t, Tracking, false))])] + [Examine(Some(COLLISION))]
  }

  lemma BuoyIsHeard(actions: seq<Action>, log: seq<AlarmEvent>, t: nat)
    requires At(actions, Machine(map[], []), log)
    ensures At(actions + [Hear(BUOY_CONTEXT, HERE, t)], Only(t, Tracking, false, []), log)
  {
    BuoyHeard(t);
    Then(actions, Machine(map[], []), log, Hear(BUOY_CONTEXT, HERE, t));
    assert log + [] == log;
  }

  lemma BuoyIsRaised(actions: seq<Action>, log: seq<AlarmEvent>, t: nat)
    requires At(actions, Only(t, Tracking, false, []), log)
    ensures At(actions + [Begin([SnapshotOf(BuoyAt(t, Tracking, false))])] + [Examine(Some(COLLISION))],
               Only(t, Tracking, true, []), log + [Raised(Cpa.Alarm)])
  {
    BuoyRaised(t);
    var snap := SnapshotOf(BuoyAt(t, Tracking, false));
    Then(actions, Only(t, Tracking, false, []), log, Begin([snap]));
    assert log + [] == log;
    Then(actions + [Begin([snap])], Only(t, Tracking, false, [snap]), log, Examine(Some(COLLISION)));
  }

  lemma LifeBegins(actions: seq<Action>, log: seq<AlarmEvent>, t: nat)
    requires At(actions, Machine(map[], []), log)
    ensures At(AndAlarm(actions, t), Only(t, Tracking, true, []), log + [Raised(Cpa.Alarm)])
  {
    BuoyIsHeard(actions, log, t);
    BuoyIsRaised(actions + [Hear(BUOY_CONTEXT, HERE, t)], log, t);
  }

  /** Then nothing more is heard of it, and it is removed with its latch set. */
  lemma LifeEnds(actions: seq<Action>, log: seq<AlarmEvent>, t: nat)
    requires At(actions, Only(t, Tracking, true, []), log)
    ensures var lost := actions + [TickNow(t + 901 * SECOND)];
            && At(lost, Only(t, Lost, true, []), log)
            && DropsLatched(Reach(DEFAULTS, NEAR, lost), TickNow(t + 4501 * SECOND), BUOY)
            && At(lost + [TickNow(t + 4501 * SECOND)], Machine(map[], []), log)
  {
    BuoyLostAndRemoved(t);
    assert log + [] == log;
    Then(actions, Only(t, Tracking, true, []), log, TickNow(t + 901 * SECOND));
    Then(actions + [TickNow(t + 901 * SECOND)], Only(t, Lost, true, []), log, TickNow(t + 4501 * SECOND));
  }

  /** The buoy's first life up to its loss. */
  function FirstLife(): seq<Action> {
    AndAlarm([], 0) + [TickNow(901 * SECOND)]
  }

  const Removal := TickNow(4501 * SECOND)

  /** A legal run with the default thresholds in which a target is removed with its
      latch set, and whose log shows two raises in a row. */
  lemma LatchedTargetIsRemoved()
    ensures var run := AndAlarm(FirstLife() + [Removal], 4502 * SECOND);
            && Legal(DEFAULTS, NEAR, run) && DropsLatched(Reach(DEFAULTS, NEAR, FirstLife()), Removal, BUOY)
            && AlarmLog(DEFAULTS, NEAR, run, BUOY) == [Raised(Cpa.Alarm), Raised(Cpa.Alarm)]
  {
    LifeBegins([], [], 0);
    LifeEnds(AndAlarm([], 0), [] + [Raised(Cpa.Alarm)], 0);
    LifeBegins(FirstLife() + [Removal], [] + [Raised(Cpa.Alarm)], 4502 * SECOND);
    assert [] + [Raised(Cpa.Alarm)] + [Raised(Cpa.Alarm)] == [Raised(Cpa.Alarm), Raised(Cpa.Alarm)];
  }
}
