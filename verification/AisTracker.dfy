/** The lifecycle of tracked AIS targets: confirmation, loss, removal and
    re-acquisition (crates/plugins/ais-status/src/tracker.rs). */
module AisTracker {
  import opened Basics
  import opened JsonModel

  datatype TargetClass = Vessel | Aton | Base | Sar

  datatype Status = Acquiring | Tracking | Lost

  const SECOND := 1_000_000_000

  /** Durations are in nanoseconds. */
  datatype Thresholds = Thresholds(confirmCount: nat, confirmWindow: nat, lostAfter: nat, removeAfter: nat)

  datatype Overrides = Overrides(confirmCount: Option<nat>, confirmWindowSecs: Option<nat>,
                                 lostAfterSecs: Option<nat>, removeAfterSecs: Option<nat>)

  datatype Config = Config(vessel: Option<Overrides>, aton: Option<Overrides>,
                           base: Option<Overrides>, sar: Option<Overrides>)

  datatype Transition = Transition(mmsi: string, context: string, oldStatus: Status, newStatus: Status)

  function ClassifyMmsi(mmsi: string): TargetClass {
    if "97" <= mmsi then Aton
    else if "00" <= mmsi then Base
    else if "111" <= mmsi then Sar
    else Vessel
  }

  function OrElse<T>(o: Option<T>, default: T): T {
    if o.Some? then o.value else default
  }

  function ThresholdsFor(class_: TargetClass, config: Config): Thresholds {
    var (count, window, lost, remove) :=
      match class_
      case Vessel => (2, 180, 360, 540)
      case Aton => (1, 180, 900, 3600)
      case Base => (1, 10, 30, 180)
      case Sar => (1, 10, 30, 180);
    var overrides := match class_
                     case Vessel => config.vessel
                     case Aton => config.aton
                     case Base => config.base
                     case Sar => config.sar;
    match overrides
    case None => Thresholds(count, window * SECOND, lost * SECOND, remove * SECOND)
    case Some(o) => Thresholds(OrElse(o.confirmCount, count), OrElse(o.confirmWindowSecs, window) * SECOND,
                               OrElse(o.lostAfterSecs, lost) * SECOND, OrElse(o.removeAfterSecs, remove) * SECOND)
  }

  const MMSI_CONTEXT := "vessels.urn:mrn:imo:mmsi:"

  function ParseMmsi(context: string): Option<string> {
    if MMSI_CONTEXT <= context then Some(context[|MMSI_CONTEXT|..]) else None
  }

  predicate EndsWith(s: string, suffix: string) {
    |suffix| <= |s| && s[|s| - |suffix|..] == suffix
  }

  /** The target a context addresses, or `None` for contexts the tracker ignores. */
  function Addressed(context: string, selfUri: string): Option<string> {
    if EndsWith(context, selfUri) || context == "vessels.self" then None else ParseMmsi(context)
  }

  // ----- one target -----

  /** The state of a target; instants are nanoseconds since the clock's epoch. */
  datatype Target = Target(mmsi: string, context: string, thresholds: Thresholds, status: Status,
                           lastSeen: nat, messageCount: nat, recent: seq<nat>,
                           position: Option<(real, real)>, sog: Option<real>, cog: Option<real>,
                           alarmActive: bool)

  function NewTarget(mmsi: string, context: string, now: nat, config: Config): Target {
    Target(mmsi, context, ThresholdsFor(ClassifyMmsi(mmsi), config), Acquiring, now, 0, [], None, None, None, false)
  }

  /** `now.checked_sub(window).unwrap_or(now)`. */
  function WindowStart(now: nat, window: nat): nat {
    if window <= now then now - window else now
  }

  /** The times not before `start`, in order. */
  function Since(times: seq<nat>, start: nat): seq<nat> {
    if times == [] then []
    else Since(times[..|times| - 1], start) + if times[|times| - 1] >= start then [times[|times| - 1]] else []
  }

  function RecordMessage(t: Target, now: nat): (Target, Option<Transition>) {
    var recent := Since(t.recent + [now], WindowStart(now, t.thresholds.confirmWindow));
    var seen := t.(lastSeen := now, messageCount := t.messageCount + 1, recent := recent);
    match t.status
    case Acquiring =>
      if |recent| >= t.thresholds.confirmCount
      then (seen.(status := Tracking), Some(Transition(t.mmsi, t.context, Acquiring, Tracking)))
      else (seen, None)
    case Lost => (seen.(status := Tracking, recent := [now]), Some(Transition(t.mmsi, t.context, Lost, Tracking)))
    case Tracking => (seen, None)
  }

  function NumberIn(j: Json, key: string): Option<real> {
    if j.Obj? && key in j.fields then AsNum(j.fields[key]) else None
  }

  function TakeValue(t: Target, path: string, value: Json): Target {
    if path == "navigation.position" then
      (match (NumberIn(value, "latitude"), NumberIn(value, "longitude"))
       case (Some(lat), Some(lon)) => t.(position := Some((lat, lon)))
       case _ => t)
    else if path == "navigation.speedOverGround" then t.(sog := AsNum(value))
    else if path == "navigation.courseOverGroundTrue" then t.(cog := AsNum(value))
    else t
  }

  function TakeValues(t: Target, values: seq<(string, Json)>): Target {
    if values == [] then t
    else TakeValue(TakeValues(t, values[..|values| - 1]), values[|values| - 1].0, values[|values| - 1].1)
  }

  /** A delta with some values reaches a target. */
  function Heard(t: Target, values: seq<(string, Json)>, now: nat): (Target, Option<Transition>) {
    RecordMessage(TakeValues(t, values), now)
  }

  /** `now.duration_since(last)`, zero when `last` lies ahead. */
  function Elapsed(now: nat, last: nat): nat {
    if now >= last then now - last else 0
  }

  predicate Expires(t: Target, now: nat) {
    match t.status
    case Acquiring => Elapsed(now, t.lastSeen) > t.thresholds.confirmWindow
    case Lost => Elapsed(now, t.lastSeen) > t.thresholds.lostAfter + t.thresholds.removeAfter
    case Tracking => false
  }

  predicate GoesLost(t: Target, now: nat) {
    t.status == Tracking && Elapsed(now, t.lastSeen) > t.thresholds.lostAfter
  }

  // ----- all targets -----

  type Targets = map<string, Target>

  /** A delta's effect, and the transition it reports. */
  function UpdateTarget(ts: Targets, config: Config, selfUri: string, context: string,
                        values: seq<(string, Json)>, now: nat): (Targets, Option<Transition>) {
    match Addressed(context, selfUri)
    case None => (ts, None)
    case Some(mmsi) => UpdateKnown(ts, config, mmsi, context, values, now)
  }

  function UpdateKnown(ts: Targets, config: Config, mmsi: string, context: string,
                       values: seq<(string, Json)>, now: nat): (Targets, Option<Transition>) {
    var t := if mmsi in ts then ts[mmsi] else NewTarget(mmsi, context, now, config);
    var (recorded, transition) := Heard(t, values, now);
    (ts[mmsi := recorded], transition)
  }

  function TickTarget(t: Target, now: nat): Target {
    if GoesLost(t, now) then t.(status := Lost) else t
  }

  function Tick(ts: Targets, now: nat): Targets {
    map k | k in ts && !Expires(ts[k], now) :: TickTarget(ts[k], now)
  }

  /** The transitions of a tick: each target lost by it once, in some order. */
  ghost predicate TickTransitions(ts: Targets, now: nat, log: seq<Transition>) {
    && (forall i :: 0 <= i < |log| ==>
          log[i].mmsi in ts && GoesLost(ts[log[i].mmsi], now)
          && log[i] == Transition(log[i].mmsi, ts[log[i].mmsi].context, Tracking, Lost))
    && (forall i, j :: 0 <= i < j < |log| ==> log[i].mmsi != log[j].mmsi)
    && (forall k :: k in ts && GoesLost(ts[k], now) ==> exists i :: 0 <= i < |log| && log[i].mmsi == k)
  }

  /** A confirmed target's data for one collision computation. */
  datatype CpaSnapshot = CpaSnapshot(mmsi: string, context: string, lat: real, lon: real, sog: real, cog: real,
                                     alarmActive: bool)

  predicate CpaCandidate(t: Target) {
    t.status == Tracking && t.position.Some?
  }

  function SnapshotOf(t: Target): CpaSnapshot
    requires CpaCandidate(t)
  {
    CpaSnapshot(t.mmsi, t.context, t.position.value.0, t.position.value.1,
                OrElse(t.sog, 0.0), OrElse(t.cog, 0.0), t.alarmActive)
  }

  /** `snaps` lists the snapshot of every candidate once, in some order. */
  ghost predicate ListsCandidates(ts: Targets, snaps: seq<CpaSnapshot>) {
    && (forall i :: 0 <= i < |snaps| ==>
          snaps[i].mmsi in ts && CpaCandidate(ts[snaps[i].mmsi]) && snaps[i] == SnapshotOf(ts[snaps[i].mmsi]))
    && (forall i, j :: 0 <= i < j < |snaps| ==> snaps[i].mmsi != snaps[j].mmsi)
    && (forall k :: k in ts && CpaCandidate(ts[k]) ==> exists i :: 0 <= i < |snaps| && snaps[i].mmsi == k)
  }

  function SetAlarm(ts: Targets, mmsi: string, active: bool): Targets {
    if mmsi in ts then ts[mmsi := ts[mmsi].(alarmActive := active)] else ts
  }

  // ----- the objects -----

  class TrackedTarget {
    const mmsi: string
    const context: string
    const thresholds: Thresholds
    var status: Status
    var lastSeen: nat
    var messageCount: nat
    var recentMessages: seq<nat>
    var position: Option<(real, real)>
    var sog: Option<real>
    var cog: Option<real>
    var lastCpa: Option<real>
    var lastTcpa: Option<real>
    var cpaAlarmActive: bool

    ghost function State(): Target
      reads this
    {
      Target(mmsi, context, thresholds, status, lastSeen, messageCount, recentMessages, position, sog, cog, cpaAlarmActive)
    }

    constructor (mmsi: string, context: string, now: nat, config: Config)
      ensures State() == NewTarget(mmsi, context, now, config)
    {
      this.mmsi, this.context := mmsi, context;
      thresholds := ThresholdsFor(ClassifyMmsi(mmsi), config);
      status, lastSeen, messageCount, recentMessages := Acquiring, now, 0, [];
      position, sog, cog, lastCpa, lastTcpa, cpaAlarmActive := None, None, None, None, None, false;
    }

    method Record(now: nat) returns (transition: Option<Transition>)
      modifies this
      ensures (State(), transition) == RecordMessage(old(State()), now)
      ensures lastCpa == old(lastCpa) && lastTcpa == old(lastTcpa)
    {
      transition := None;
      lastSeen := now;
      messageCount := messageCount + 1;
      recentMessages := Since(recentMessages + [now], WindowStart(now, thresholds.confirmWindow));
      var oldStatus := status;
      match status
      case Acquiring =>
        if |recentMessages| >= thresholds.confirmCount {
          status := Tracking;
          return Some(Transition(mmsi, context, oldStatus, Tracking));
        }
      case Lost =>
        status := Tracking;
        recentMessages := [now];
        return Some(Transition(mmsi, context, oldStatus, Tracking));
      case Tracking =>
    }

    /** One target's part of a tick. */
    method CheckAge(now: nat) returns (expired: bool, lost: Option<Transition>)
      modifies this`status
      ensures State() == TickTarget(old(State()), now)
      ensures expired == Expires(old(State()), now)
      ensures lost == if GoesLost(old(State()), now) then Some(Transition(mmsi, context, Tracking, Lost)) else None
    {
      var elapsed := Elapsed(now, lastSeen);
      expired, lost := false, None;
      match status
      case Acquiring =>
        expired := elapsed > thresholds.confirmWindow;
      case Tracking =>
        if elapsed > thresholds.lostAfter {
          status := Lost;
          lost := Some(Transition(mmsi, context, Tracking, Lost));
        }
      case Lost =>
        expired := elapsed > thresholds.lostAfter + thresholds.removeAfter;
    }

    method UpdateFromValues(values: seq<(string, Json)>)
      modifies this
      ensures State() == TakeValues(old(State()), values)
      ensures lastCpa == old(lastCpa) && lastTcpa == old(lastTcpa)
    {
      for i := 0 to |values|
        invariant State() == TakeValues(old(State()), values[..i])
        invariant lastCpa == old(lastCpa) && lastTcpa == old(lastTcpa)
      {
        assert values[..i + 1][..i] == values[..i];
        var (path, value) := values[i];
        if path == "navigation.position" {
          var lat, lon := NumberIn(value, "latitude"), NumberIn(value, "longitude");
          if lat.Some? && lon.Some? {
            position := Some((lat.value, lon.value));
          }
        } else if path == "navigation.speedOverGround" {
          sog := AsNum(value);
        } else if path == "navigation.courseOverGroundTrue" {
          cog := AsNum(value);
        }
      }
      assert values[..|values|] == values;
    }
  }

  class Tracker {
    var targets: map<string, TrackedTarget>
    const selfUri: string
    const config: Config

    /** The tracker owns its targets: one object per key, filed under its own MMSI. */
    ghost predicate Valid()
      reads this, targets.Values
    {
      && (forall j, k :: j in targets && k in targets && j != k ==> targets[j] != targets[k])
      && (forall k :: k in targets ==> targets[k].mmsi == k)
    }

    ghost function State(): Targets
      reads this, targets.Values
    {
      map k | k in targets :: targets[k].State()
    }

    constructor (selfUri: string, config: Config)
      ensures Valid() && State() == map[] && this.selfUri == selfUri && this.config == config
    {
      targets := map[];
      this.selfUri, this.config := selfUri, config;
    }

    method Update(context: string, values: seq<(string, Json)>, now: nat) returns (transition: Option<Transition>)
      requires Valid()
      modifies this, targets.Values
      ensures Valid() && fresh(targets.Values - old(targets.Values))
      ensures (State(), transition) == UpdateTarget(old(State()), config, selfUri, context, values, now)
    {
      var addressed := Addressed(context, selfUri);
      if addressed.None? {
        return None;
      }
      transition := UpdateAddressed(addressed.value, context, values, now);
    }

    method UpdateAddressed(mmsi: string, context: string, values: seq<(string, Json)>, now: nat)
      returns (transition: Option<Transition>)
      requires Valid()
      modifies this, targets.Values
      ensures Valid() && fresh(targets.Values - old(targets.Values))
      ensures (State(), transition) == UpdateKnown(old(State()), config, mmsi, context, values, now)
    {
      ghost var before := State();
      FindOrCreate(mmsi, context, now);
      ghost var t := State()[mmsi];
      ghost var recorded;
      transition, recorded := Receive(mmsi, values, now);
      OverwriteTwice(before, mmsi, t, recorded);
    }

    method FindOrCreate(mmsi: string, context: string, now: nat)
      requires Valid()
      modifies this
      ensures Valid() && fresh(targets.Values - old(targets.Values)) && mmsi in targets
      ensures State() == old(State())[mmsi := if mmsi in old(State()) then old(State())[mmsi]
                                              else NewTarget(mmsi, context, now, config)]
    {
      if mmsi !in targets {
        var created := new TrackedTarget(mmsi, context, now, config);
        targets := targets[mmsi := created];
      }
    }

    method Receive(mmsi: string, values: seq<(string, Json)>, now: nat)
      returns (transition: Option<Transition>, ghost recorded: Target)
      requires Valid() && mmsi in targets
      modifies targets.Values
      ensures Valid()
      ensures (recorded, transition) == Heard(old(State())[mmsi], values, now)
      ensures State() == old(State())[mmsi := recorded]
    {
      var target := targets[mmsi];
      target.UpdateFromValues(values);
      transition := target.Record(now);
      recorded := target.State();
      assert forall k :: k in targets && k != mmsi ==> targets[k].State() == old(targets[k].State());
    }

    method TickAll(now: nat) returns (transitions: seq<Transition>)
      requires Valid()
      modifies this, targets.Values
      ensures Valid() && targets.Values <= old(targets.Values)
      ensures State() == Tick(old(State()), now)
      ensures TickTransitions(old(State()), now, transitions)
    {
      ghost var before := State();
      var toRemove;
      transitions, toRemove := LookAtAll(now);
      Remove(toRemove);
      TickInTwoSteps(before, now);
    }

    method Remove(keys: set<string>)
      requires Valid()
      modifies this
      ensures Valid() && targets.Values <= old(targets.Values) && State() == old(State()) - keys
    {
      targets := targets - keys;
    }

    method LookAtAll(now: nat) returns (transitions: seq<Transition>, toRemove: set<string>)
      requires Valid()
      modifies targets.Values
      ensures Valid() && State() == PartlyTicked(old(State()), {}, now)
      ensures toRemove == Expired(old(State()), {}, now)
      ensures TickTransitions(old(State()), now, transitions)
    {
      ghost var before := State();
      transitions, toRemove := [], {};
      var todo := targets.Keys;
      while todo != {}
        invariant Valid() && todo <= targets.Keys == before.Keys
        invariant State() == PartlyTicked(before, todo, now)
        invariant toRemove == Expired(before, todo, now)
        invariant TickTransitions(Visited(before, todo), now, transitions)
      {
        var mmsi :| mmsi in todo;
        var expired, lost := CheckTarget(mmsi, now);
        PartlyTickedStep(before, todo, now, mmsi);
        TransitionsExtend(before, todo, now, transitions, mmsi, lost);
        toRemove := if expired then toRemove + {mmsi} else toRemove;
        transitions := if lost.Some? then transitions + [lost.value] else transitions;
        todo := todo - {mmsi};
      }
      assert Visited(before, todo) == before;
    }

    method TargetsForCpa() returns (snaps: seq<CpaSnapshot>)
      requires Valid()
      ensures ListsCandidates(State(), snaps)
    {
      snaps := [];
      var todo := targets.Keys;
      while todo != {}
        invariant todo <= targets.Keys
        invariant ListsCandidates(Visited(State(), todo), snaps)
      {
        var mmsi :| mmsi in todo;
        var t := targets[mmsi];
        var more: seq<CpaSnapshot> := [];
        if t.status == Tracking && t.position.Some? {
          more := [CpaSnapshot(t.mmsi, t.context, t.position.value.0, t.position.value.1,
                               OrElse(t.sog, 0.0), OrElse(t.cog, 0.0), t.cpaAlarmActive)];
        }
        CandidatesExtend(State(), todo, snaps, mmsi, more);
        snaps := snaps + more;
        todo := todo - {mmsi};
      }
      assert Visited(State(), todo) == State();
    }

    method UpdateTargetCpa(mmsi: string, cpa: real, tcpa: real, active: bool)
      requires Valid()
      modifies targets.Values
      ensures Valid() && State() == SetAlarm(old(State()), mmsi, active)
      ensures mmsi in targets ==> targets[mmsi].lastCpa == Some(cpa) && targets[mmsi].lastTcpa == Some(tcpa)
    {
      if mmsi in targets {
        var t := targets[mmsi];
        t.lastCpa, t.lastTcpa, t.cpaAlarmActive := Some(cpa), Some(tcpa), active;
        assert forall k :: k in targets && k != mmsi ==> targets[k].State() == old(targets[k].State());
        assert t.State() == old(State())[mmsi].(alarmActive := active);
      }
    }

    method CheckTarget(mmsi: string, now: nat) returns (expired: bool, lost: Option<Transition>)
      requires Valid() && mmsi in targets
      modifies targets.Values
      ensures Valid() && var t := old(State())[mmsi];
              && State() == old(State())[mmsi := TickTarget(t, now)]
              && expired == Expires(t, now)
              && lost == if GoesLost(t, now) then Some(Transition(mmsi, t.context, Tracking, Lost)) else None
    {
      expired, lost := targets[mmsi].CheckAge(now);
      assert forall k :: k in targets && k != mmsi ==> targets[k].State() == old(targets[k].State());
    }
  }

  /** A tick in progress: the targets in `todo` are still to be looked at. */
  ghost function PartlyTicked(ts: Targets, todo: set<string>, now: nat): Targets {
    map k | k in ts :: if k in todo then ts[k] else TickTarget(ts[k], now)
  }

  lemma OverwriteTwice(ts: Targets, mmsi: string, a: Target, b: Target)
    ensures ts[mmsi := a][mmsi := b] == ts[mmsi := b]
  {}

  /** The targets a tick has already looked at. */
  ghost function Visited(ts: Targets, todo: set<string>): Targets {
    map k | k in ts && k !in todo :: ts[k]
  }

  ghost function Expired(ts: Targets, todo: set<string>, now: nat): set<string> {
    set k | k in ts && k !in todo && Expires(ts[k], now)
  }

  lemma PartlyTickedStep(ts: Targets, todo: set<string>, now: nat, mmsi: string)
    requires mmsi in todo && mmsi in ts
    ensures PartlyTicked(ts, todo - {mmsi}, now) == PartlyTicked(ts, todo, now)[mmsi := TickTarget(ts[mmsi], now)]
    ensures Expired(ts, todo - {mmsi}, now)
         == if Expires(ts[mmsi], now) then Expired(ts, todo, now) + {mmsi} else Expired(ts, todo, now)
  {}

  lemma TickInTwoSteps(ts: Targets, now: nat)
    ensures PartlyTicked(ts, {}, now) - Expired(ts, {}, now) == Tick(ts, now)
  {}

  lemma TransitionsExtend(before: Targets, todo: set<string>, now: nat, log: seq<Transition>, mmsi: string,
                          lost: Option<Transition>)
    requires mmsi in todo && mmsi in before && TickTransitions(Visited(before, todo), now, log)
    requires lost == if GoesLost(before[mmsi], now)
                     then Some(Transition(mmsi, before[mmsi].context, Tracking, Lost)) else None
    ensures TickTransitions(Visited(before, todo - {mmsi}), now, if lost.Some? then log + [lost.value] else log)
  {
    var ts := Visited(before, todo - {mmsi});
    var log' := if lost.Some? then log + [lost.value] else log;
    forall k | k in ts && GoesLost(ts[k], now) ensures exists i :: 0 <= i < |log'| && log'[i].mmsi == k {
      if k == mmsi {
        assert log'[|log|].mmsi == k;
      } else {
        assert k in Visited(before, todo);
        var i :| 0 <= i < |log| && log[i].mmsi == k;
        assert log'[i].mmsi == k;
      }
    }
  }

  lemma CandidatesExtend(ts: Targets, todo: set<string>, snaps: seq<CpaSnapshot>, mmsi: string, more: seq<CpaSnapshot>)
    requires mmsi in todo && mmsi in ts && ts[mmsi].mmsi == mmsi && ListsCandidates(Visited(ts, todo), snaps)
    requires more == if CpaCandidate(ts[mmsi]) then [SnapshotOf(ts[mmsi])] else []
    ensures ListsCandidates(Visited(ts, todo - {mmsi}), snaps + more)
  {
    var vs, snaps' := Visited(ts, todo - {mmsi}), snaps + more;
    forall k | k in vs && CpaCandidate(vs[k]) ensures exists i :: 0 <= i < |snaps'| && snaps'[i].mmsi == k {
      if k == mmsi {
        assert snaps'[|snaps|].mmsi == k;
      } else {
        assert k in Visited(ts, todo);
        var i :| 0 <= i < |snaps| && snaps[i].mmsi == k;
        assert snaps'[i].mmsi == k;
      }
    }
  }
}
