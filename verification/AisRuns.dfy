/** What the AIS tracker guarantees over every interleaving of messages and ticks. */
module AisRuns {
  import opened Basics
  import opened JsonModel
  import opened AisTracker

  datatype Event =
    | Message(context: string, values: seq<(string, Json)>, now: nat)
    | TickAt(now: nat)

  /** The fixed parameters of a tracker. */
  datatype Setup = Setup(selfUri: string, config: Config)

  function Apply(setup: Setup, ts: Targets, e: Event): Targets {
    match e
    case Message(context, values, now) => UpdateTarget(ts, setup.config, setup.selfUri, context, values, now).0
    case TickAt(now) => Tick(ts, now)
  }

  function Run(setup: Setup, events: seq<Event>): Targets {
    if events == [] then map[]
    else Apply(setup, Run(setup, events[..|events| - 1]), events[|events| - 1])
  }

  /** The event is a message to this target. */
  predicate Hears(setup: Setup, e: Event, mmsi: string) {
    e.Message? && Addressed(e.context, setup.selfUri) == Some(mmsi)
  }

  /** What an event does to one target does not depend on the others. */
  function ApplyOne(setup: Setup, t: Option<Target>, e: Event, mmsi: string): Option<Target> {
    match e
    case Message(context, values, now) =>
      if Hears(setup, e, mmsi)
      then Some(Heard(if t.Some? then t.value else NewTarget(mmsi, context, now, setup.config), values, now).0)
      else t
    case TickAt(now) => if t.None? || Expires(t.value, now) then None else Some(TickTarget(t.value, now))
  }

  lemma ApplyIsPointwise(setup: Setup, ts: Targets, e: Event, mmsi: string)
    ensures Get(Apply(setup, ts, e), mmsi) == ApplyOne(setup, Get(ts, mmsi), e, mmsi)
  {}

  // ----- reported transitions -----

  /** The new status an event reports for a target, if any. */
  function Reported(setup: Setup, t: Option<Target>, e: Event, mmsi: string): seq<Status> {
    match e
    case Message(context, values, now) =>
      if Hears(setup, e, mmsi) then
        StatusIn(Heard(if t.Some? then t.value else NewTarget(mmsi, context, now, setup.config), values, now).1)
      else []
    case TickAt(now) => if t.Some? && GoesLost(t.value, now) then [Lost] else []
  }

  /** All statuses ever reported for a target, through removals and re-creations. */
  function Log(setup: Setup, events: seq<Event>, mmsi: string): seq<Status> {
    if events == [] then []
    else
      var before := events[..|events| - 1];
      Log(setup, before, mmsi) + Reported(setup, Get(Run(setup, before), mmsi), events[|events| - 1], mmsi)
  }

  function StatusesOf(log: seq<Transition>, mmsi: string): seq<Status> {
    if log == [] then []
    else StatusesOf(log[..|log| - 1], mmsi) + if log[|log| - 1].mmsi == mmsi then [log[|log| - 1].newStatus] else []
  }

  lemma {:induction false} StatusesOfAbsent(log: seq<Transition>, mmsi: string)
    requires forall i :: 0 <= i < |log| ==> log[i].mmsi != mmsi
    ensures StatusesOf(log, mmsi) == []
  {
    if log != [] {
      StatusesOfAbsent(log[..|log| - 1], mmsi);
    }
  }

  /** Whatever order a tick visits the targets in, it reports the same for each of them. */
  lemma {:induction false} TickReports(setup: Setup, ts: Targets, now: nat, log: seq<Transition>, mmsi: string)
    requires TickTransitions(ts, now, log)
    ensures StatusesOf(log, mmsi) == Reported(setup, Get(ts, mmsi), TickAt(now), mmsi)
  {
    if mmsi in ts && GoesLost(ts[mmsi], now) {
      var i :| 0 <= i < |log| && log[i].mmsi == mmsi;
      StatusesOfOnce(log, mmsi, i);
    } else {
      StatusesOfAbsent(log, mmsi);
    }
  }

  lemma {:induction false} StatusesOfOnce(log: seq<Transition>, mmsi: string, i: int)
    requires 0 <= i < |log| && log[i].mmsi == mmsi && forall j :: 0 <= j < |log| && j != i ==> log[j].mmsi != mmsi
    ensures StatusesOf(log, mmsi) == [log[i].newStatus]
  {
    if i == |log| - 1 {
      StatusesOfAbsent(log[..|log| - 1], mmsi);
    } else {
      StatusesOfOnce(log[..|log| - 1], mmsi, i);
    }
  }

  ghost predicate Alternating(log: seq<Status>) {
    forall i :: 0 <= i < |log| ==> log[i] == if i % 2 == 0 then Tracking else Lost
  }

  /** The log alternates, and its last entry is the status of a confirmed target;
      an unconfirmed or absent target was never reported or reported lost last. */
  ghost predicate LogAgrees(t: Option<Target>, log: seq<Status>) {
    && Alternating(log)
    && if t.Some? && t.value.status != Acquiring
       then log != [] && log[|log| - 1] == t.value.status
       else log == [] || log[|log| - 1] == Lost
  }

  lemma {:induction false} TakeValuesKeepsLifecycle(t: Target, values: seq<(string, Json)>)
    ensures var u := TakeValues(t, values);
            u.status == t.status && u.recent == t.recent && u.lastSeen == t.lastSeen && u.thresholds == t.thresholds
            && u.alarmActive == t.alarmActive && u.mmsi == t.mmsi && u.context == t.context
  {
    if values != [] {
      TakeValuesKeepsLifecycle(t, values[..|values| - 1]);
    }
  }

  function StatusIn(transition: Option<Transition>): seq<Status> {
    if transition.Some? then [transition.value.newStatus] else []
  }

  lemma RecordKeepsLog(t: Option<Target>, start: Target, log: seq<Status>, now: nat)
    requires LogAgrees(t, log) && start.status == if t.Some? then t.value.status else Acquiring
    ensures var (u, transition) := RecordMessage(start, now);
            LogAgrees(Some(u), log + StatusIn(transition))
  {
    assert log + [] == log;
  }

  lemma TickKeepsLog(t: Option<Target>, log: seq<Status>, now: nat)
    requires LogAgrees(t, log)
    ensures LogAgrees(if t.None? || Expires(t.value, now) then None else Some(TickTarget(t.value, now)),
                      log + if t.Some? && GoesLost(t.value, now) then [Lost] else [])
  {
    assert log + [] == log;
  }

  lemma StepKeepsLog(setup: Setup, t: Option<Target>, log: seq<Status>, e: Event, mmsi: string)
    requires LogAgrees(t, log)
    ensures LogAgrees(ApplyOne(setup, t, e, mmsi), log + Reported(setup, t, e, mmsi))
  {
    assert log + [] == log;
    match e
    case TickAt(now) => TickKeepsLog(t, log, now);
    case Message(context, values, now) =>
      if Hears(setup, e, mmsi) {
        var start := if t.Some? then t.value else NewTarget(mmsi, context, now, setup.config);
        TakeValuesKeepsLifecycle(start, values);
        RecordKeepsLog(t, TakeValues(start, values), log, now);
      }
  }

  /** Main result: for each target, over every interleaving of messages and ticks and
      across silent removals and re-creations, the reported statuses strictly
      alternate Tracking, Lost, Tracking, Lost. */
  lemma {:induction false} TransitionsAlternate(setup: Setup, events: seq<Event>, mmsi: string)
    ensures LogAgrees(Get(Run(setup, events), mmsi), Log(setup, events, mmsi))
  {
    if events != [] {
      var before, e := events[..|events| - 1], events[|events| - 1];
      TransitionsAlternate(setup, before, mmsi);
      ApplyIsPointwise(setup, Run(setup, before), e, mmsi);
      StepKeepsLog(setup, Get(Run(setup, before), mmsi), Log(setup, before, mmsi), e, mmsi);
    }
  }

  // ----- the confirmation window -----

  /** Message times of a target: since its creation, and since its creation or last
      re-acquisition. */
  datatype History = History(life: seq<nat>, current: seq<nat>)

  function HistoryStep(setup: Setup, t: Option<Target>, h: History, e: Event, mmsi: string): History {
    match e
    case Message(_, _, now) =>
      if !Hears(setup, e, mmsi) then h
      else if t.None? then History([now], [now])
      else if t.value.status == Lost then History(h.life + [now], [now])
      else History(h.life + [now], h.current + [now])
    case TickAt(now) => if t.Some? && Expires(t.value, now) then History([], []) else h
  }

  function HistoryOf(setup: Setup, events: seq<Event>, mmsi: string): History {
    if events == [] then History([], [])
    else
      var before := events[..|events| - 1];
      HistoryStep(setup, Get(Run(setup, before), mmsi), HistoryOf(setup, before, mmsi), events[|events| - 1], mmsi)
  }

  function LimitsOf(setup: Setup, mmsi: string): Thresholds {
    ThresholdsFor(ClassifyMmsi(mmsi), setup.config)
  }

  /** The clock never goes back, and at each of the target's messages it shows at
      least the length of the confirmation window. */
  ghost predicate WellTimed(setup: Setup, events: seq<Event>, mmsi: string) {
    && (forall i, j :: 0 <= i < j < |events| ==> events[i].now <= events[j].now)
    && (forall i :: 0 <= i < |events| && Hears(setup, events[i], mmsi)
          ==> LimitsOf(setup, mmsi).confirmWindow <= events[i].now)
  }

  /** The `i`-th message of a life completed a confirmation. */
  ghost predicate Confirms(life: seq<nat>, i: int, limits: Thresholds)
    requires 0 <= i < |life|
  {
    |Since(life[..i + 1], WindowStart(life[i], limits.confirmWindow))| >= limits.confirmCount
  }

  ghost predicate NeverConfirmed(life: seq<nat>, limits: Thresholds) {
    forall i :: 0 <= i < |life| ==> !Confirms(life, i, limits)
  }

  ghost predicate WindowExact(t: Target, h: History, limits: Thresholds) {
    && t.thresholds == limits
    && h.life != [] && h.life[|h.life| - 1] == t.lastSeen
    && t.recent == Since(h.current, WindowStart(t.lastSeen, limits.confirmWindow))
    && (t.status == Acquiring ==> h.current == h.life)
    && (t.status == Acquiring <==> NeverConfirmed(h.life, limits))
  }

  lemma {:induction false} SinceTwice(times: seq<nat>, a: nat, b: nat)
    requires a <= b
    ensures Since(Since(times, a), b) == Since(times, b)
  {
    if times != [] {
      var before, x := times[..|times| - 1], times[|times| - 1];
      SinceTwice(before, a, b);
      SinceAppend(Since(before, a), x, b);
      assert Since(before, a) + [] == Since(before, a) && Since(before, b) + [] == Since(before, b);
    }
  }

  lemma SinceAppend(times: seq<nat>, x: nat, a: nat)
    ensures Since(times + [x], a) == Since(times, a) + if x >= a then [x] else []
  {
    assert (times + [x])[..|times|] == times;
  }

  lemma NeverConfirmedAppend(life: seq<nat>, x: nat, limits: Thresholds)
    ensures NeverConfirmed(life + [x], limits)
       <==> NeverConfirmed(life, limits)
            && |Since(life + [x], WindowStart(x, limits.confirmWindow))| < limits.confirmCount
  {
    var l := life + [x];
    assert l[..|l|] == l;
    forall i | 0 <= i < |life| ensures Confirms(l, i, limits) <==> Confirms(life, i, limits) {
      assert l[..i + 1] == life[..i + 1];
    }
    assert Confirms(l, |life|, limits) <==> |Since(l, WindowStart(x, limits.confirmWindow))| >= limits.confirmCount;
  }

  lemma PruneAgain(times: seq<nat>, last: nat, now: nat, w: nat)
    requires w <= last <= now
    ensures Since(Since(times, WindowStart(last, w)) + [now], WindowStart(now, w)) == Since(times + [now], WindowStart(now, w))
  {
    SinceAppend(Since(times, last - w), now, now - w);
    SinceAppend(times, now, now - w);
    SinceTwice(times, last - w, now - w);
  }

  lemma WindowOfOne(now: nat, w: nat)
    ensures Since([now], WindowStart(now, w)) == [now]
  {
    SinceAppend([], now, WindowStart(now, w));
    assert [] + [now] == [now];
  }

  lemma RecordKeepsWindow(t: Target, h: History, now: nat, limits: Thresholds)
    requires WindowExact(t, h, limits) && limits.confirmWindow <= t.lastSeen <= now
    ensures WindowExact(RecordMessage(t, now).0,
                        History(h.life + [now], if t.status == Lost then [now] else h.current + [now]), limits)
  {
    PruneAgain(h.current, t.lastSeen, now, limits.confirmWindow);
    WindowOfOne(now, limits.confirmWindow);
    NeverConfirmedAppend(h.life, now, limits);
  }

  lemma HearingKeepsWindow(t: Target, h: History, values: seq<(string, Json)>, now: nat, limits: Thresholds)
    requires WindowExact(t, h, limits) && limits.confirmWindow <= t.lastSeen <= now
    ensures WindowExact(Heard(t, values, now).0,
                        History(h.life + [now], if t.status == Lost then [now] else h.current + [now]), limits)
  {
    TakeValuesKeepsLifecycle(t, values);
    RecordKeepsWindow(TakeValues(t, values), h, now, limits);
  }

  lemma FirstMessage(t: Target, values: seq<(string, Json)>, now: nat)
    requires t.status == Acquiring && t.recent == []
    ensures WindowExact(Heard(t, values, now).0, History([now], [now]), t.thresholds)
  {
    TakeValuesKeepsLifecycle(t, values);
    WindowOfOne(now, t.thresholds.confirmWindow);
    NeverConfirmedAppend([], now, t.thresholds);
    assert [] + [now] == [now];
  }

  lemma {:induction false} LifeIsHeard(setup: Setup, events: seq<Event>, mmsi: string)
    requires WellTimed(setup, events, mmsi)
    ensures var life := HistoryOf(setup, events, mmsi).life;
            life != [] ==> LimitsOf(setup, mmsi).confirmWindow <= life[|life| - 1]
                           && events != [] && life[|life| - 1] <= events[|events| - 1].now
  {
    if events != [] {
      LifeIsHeard(setup, events[..|events| - 1], mmsi);
    }
  }

  /** Main result: the pruned list of recent messages is always the whole history
      since creation or re-acquisition, cut to the window; so a target is still
      acquiring exactly if no message of its life completed the required count. */
  lemma {:induction false} WindowIsExact(setup: Setup, events: seq<Event>, mmsi: string)
    requires WellTimed(setup, events, mmsi)
    ensures mmsi in Run(setup, events)
        ==> WindowExact(Run(setup, events)[mmsi], HistoryOf(setup, events, mmsi), LimitsOf(setup, mmsi))
  {
    if events != [] {
      var before, e := events[..|events| - 1], events[|events| - 1];
      WindowIsExact(setup, before, mmsi);
      LifeIsHeard(setup, before, mmsi);
      ApplyIsPointwise(setup, Run(setup, before), e, mmsi);
      StepKeepsWindow(setup, Get(Run(setup, before), mmsi), HistoryOf(setup, before, mmsi), e, mmsi);
    }
  }

  lemma StepKeepsWindow(setup: Setup, t: Option<Target>, h: History, e: Event, mmsi: string)
    requires t.Some? ==> WindowExact(t.value, h, LimitsOf(setup, mmsi))
    requires t.Some? && Hears(setup, e, mmsi) ==> LimitsOf(setup, mmsi).confirmWindow <= t.value.lastSeen <= e.now
    ensures var u := ApplyOne(setup, t, e, mmsi);
            u.Some? ==> WindowExact(u.value, HistoryStep(setup, t, h, e, mmsi), LimitsOf(setup, mmsi))
  {
    if Hears(setup, e, mmsi) {
      if t.Some? {
        HearingKeepsWindow(t.value, h, e.values, e.now, LimitsOf(setup, mmsi));
      } else {
        FirstMessage(NewTarget(mmsi, e.context, e.now, setup.config), e.values, e.now);
      }
    }
  }

  lemma {:induction false} SinceKeepsAll(times: seq<nat>, a: nat)
    ensures |Since(times, a)| <= |times|
    ensures Since(times, a) == times <==> forall i :: 0 <= i < |times| ==> times[i] >= a
  {
    if times != [] {
      var before := times[..|times| - 1];
      SinceKeepsAll(before, a);
      assert times == before + [times[|times| - 1]];
    }
  }

  /** Before the clock shows one window length the subtraction underflows: then every
      earlier message is forgotten although it lies in the window, so the window is
      honoured exactly if all earlier messages carry the very same time. */
  lemma UnderflowForgets(t: Target, now: nat)
    requires now < t.thresholds.confirmWindow && t.status != Lost
    requires forall i :: 0 <= i < |t.recent| ==> t.recent[i] <= now
    ensures RecordMessage(t, now).0.recent == t.recent + [now] <==> forall i :: 0 <= i < |t.recent| ==> t.recent[i] == now
  {
    var all := t.recent + [now];
    SinceKeepsAll(all, now);
    assert forall i :: 0 <= i < |t.recent| ==> all[i] == t.recent[i];
  }
}
