/** When AIS targets are lost and removed, from the times of messages and ticks alone
    (crates/plugins/ais-status/src/tracker.rs). */
module AisLifecycle {
  import opened Basics
  import opened JsonModel
  import opened AisTracker
  import opened AisRuns

  /** The time of the last message to a target. */
  function LastHeard(setup: Setup, events: seq<Event>, mmsi: string): Option<nat> {
    if events == [] then None
    else if Hears(setup, events[|events| - 1], mmsi) then Some(events[|events| - 1].now)
    else LastHeard(setup, events[..|events| - 1], mmsi)
  }

  lemma HearingIsSeen(setup: Setup, t: Option<Target>, e: Event, mmsi: string, heard: Option<nat>)
    requires t.Some? ==> heard == Some(t.value.lastSeen) && t.value.thresholds == LimitsOf(setup, mmsi)
    ensures var u := ApplyOne(setup, t, e, mmsi);
            u.Some? ==> u.value.thresholds == LimitsOf(setup, mmsi)
                        && Some(u.value.lastSeen) == if Hears(setup, e, mmsi) then Some(e.now) else heard
  {
    if Hears(setup, e, mmsi) {
      TakeValuesKeepsLifecycle(if t.Some? then t.value else NewTarget(mmsi, e.context, e.now, setup.config), e.values);
    }
  }

  lemma {:induction false} LastHeardIsSeen(setup: Setup, events: seq<Event>, mmsi: string)
    ensures var t := Get(Run(setup, events), mmsi);
            t.Some? ==> LastHeard(setup, events, mmsi) == Some(t.value.lastSeen) && t.value.thresholds == LimitsOf(setup, mmsi)
  {
    if events != [] {
      var before, e := events[..|events| - 1], events[|events| - 1];
      LastHeardIsSeen(setup, before, mmsi);
      ApplyIsPointwise(setup, Run(setup, before), e, mmsi);
      HearingIsSeen(setup, Get(Run(setup, before), mmsi), e, mmsi, LastHeard(setup, before, mmsi));
    }
  }

  // ----- one tick -----

  /** What a tick does to a target last heard at `heard`, with these limits in nanoseconds:
      `now` and `after` are what is known of it before and after, `reports` what is reported. */
  ghost predicate TickVerdict(before: Target, after: Option<Target>, reports: seq<Status>, heard: nat, now: nat,
                              window: nat, lost: nat, remove: nat) {
    match before.status
    case Acquiring => reports == [] && if now > heard + window then after == None else after == Some(before)
    case Tracking =>
      if now > heard + lost then reports == [Lost] && after == Some(before.(status := Lost))
      else reports == [] && after == Some(before)
    case Lost => reports == [] && if now > heard + lost + remove then after == None else after == Some(before)
  }

  /** A tick after a run judges the target by the time of its last message. */
  ghost predicate TickJudges(setup: Setup, events: seq<Event>, mmsi: string, now: nat, window: nat, lost: nat, remove: nat)
    requires mmsi in Run(setup, events)
  {
    var after, heard := events + [TickAt(now)], LastHeard(setup, events, mmsi);
    && heard.Some?
    && exists reports :: Log(setup, after, mmsi) == Log(setup, events, mmsi) + reports
                         && TickVerdict(Run(setup, events)[mmsi], Get(Run(setup, after), mmsi), reports, heard.value, now,
                                        window, lost, remove)
  }

  lemma RunOneMore(setup: Setup, events: seq<Event>, e: Event, mmsi: string)
    ensures var t := Get(Run(setup, events), mmsi);
            && Get(Run(setup, events + [e]), mmsi) == ApplyOne(setup, t, e, mmsi)
            && Log(setup, events + [e], mmsi) == Log(setup, events, mmsi) + Reported(setup, t, e, mmsi)
  {
    assert (events + [e])[..|events|] == events;
    ApplyIsPointwise(setup, Run(setup, events), e, mmsi);
  }

  lemma VerdictOfTick(setup: Setup, t: Target, now: nat, mmsi: string)
    ensures TickVerdict(t, ApplyOne(setup, Some(t), TickAt(now), mmsi), Reported(setup, Some(t), TickAt(now), mmsi), t.lastSeen, now,
                        t.thresholds.confirmWindow, t.thresholds.lostAfter, t.thresholds.removeAfter)
  {}

  /** Main result: after every run, a tick reports a target lost if and only if it is
      tracked and its last message is more than `lostAfter` ago; it removes a lost one if
      and only if that is more than `lostAfter + removeAfter` ago, and an unconfirmed one
      if and only if it is more than the confirmation window ago. */
  lemma TicksJudgeByLastMessage(setup: Setup, events: seq<Event>, mmsi: string, now: nat)
    requires mmsi in Run(setup, events)
    ensures var limits := LimitsOf(setup, mmsi);
            TickJudges(setup, events, mmsi, now, limits.confirmWindow, limits.lostAfter, limits.removeAfter)
  {
    LastHeardIsSeen(setup, events, mmsi);
    RunOneMore(setup, events, TickAt(now), mmsi);
    VerdictOfTick(setup, Run(setup, events)[mmsi], now, mmsi);
  }

  function Sec(n: nat): nat {
    n * 1_000_000_000
  }

  const Defaults := Config(None, None, None, None)

  /** The same in seconds, without configured thresholds: aids to navigation (97), coast
      stations (00), search and rescue aircraft (111), and all other vessels. */
  lemma DefaultTicks(selfUri: string, events: seq<Event>, mmsi: string, now: nat)
    requires mmsi in Run(Setup(selfUri, Defaults), events)
    ensures var setup := Setup(selfUri, Defaults);
            if "97" <= mmsi then TickJudges(setup, events, mmsi, now, Sec(180), Sec(900), Sec(3600))
            else if "00" <= mmsi || "111" <= mmsi then TickJudges(setup, events, mmsi, now, Sec(10), Sec(30), Sec(180))
            else TickJudges(setup, events, mmsi, now, Sec(180), Sec(360), Sec(540))
  {
    TicksJudgeByLastMessage(Setup(selfUri, Defaults), events, mmsi, now);
  }

  /** A configured number of seconds takes the place of the default, each for itself. */
  lemma ConfiguredLimits(o: Overrides)
    ensures var vessel, aton := ThresholdsFor(Vessel, Defaults.(vessel := Some(o))), ThresholdsFor(Aton, Defaults.(aton := Some(o)));
            var base, sar := ThresholdsFor(Base, Defaults.(base := Some(o))), ThresholdsFor(Sar, Defaults.(sar := Some(o)));
            && (o.lostAfterSecs.Some? ==> forall l <- [vessel, aton, base, sar] :: l.lostAfter == Sec(o.lostAfterSecs.value))
            && (o.removeAfterSecs.Some? ==> forall l <- [vessel, aton, base, sar] :: l.removeAfter == Sec(o.removeAfterSecs.value))
            && (o.confirmWindowSecs.Some? ==> forall l <- [vessel, aton, base, sar] :: l.confirmWindow == Sec(o.confirmWindowSecs.value))
            && (o.confirmCount.Some? ==> forall l <- [vessel, aton, base, sar] :: l.confirmCount == o.confirmCount.value)
            && (o == Overrides(None, None, None, None) ==>
                  && vessel == Thresholds(2, Sec(180), Sec(360), Sec(540)) && aton == Thresholds(1, Sec(180), Sec(900), Sec(3600))
                  && base == Thresholds(1, Sec(10), Sec(30), Sec(180)) && sar == base)
  {}

  // ----- a target that falls silent -----

  function TickEvents(ticks: seq<nat>): seq<Event> {
    if ticks == [] then [] else TickEvents(ticks[..|ticks| - 1]) + [TickAt(ticks[|ticks| - 1])]
  }

  /** The `i`-th tick is the first later than `limit`. */
  ghost predicate FirstAfter(ticks: seq<nat>, limit: nat, i: nat) {
    i < |ticks| && ticks[i] > limit && forall k :: 0 <= k < i ==> ticks[k] <= limit
  }

  /** Some tick behind the `i`-th is later than `limit`. */
  ghost predicate LaterOne(ticks: seq<nat>, limit: nat, i: nat) {
    exists j :: i < j < |ticks| && ticks[j] > limit
  }

  ghost predicate Faded(t: Target, now: Option<Target>, reports: seq<Status>, ticks: seq<nat>, lost: nat, gone: nat) {
    && ((forall k :: 0 <= k < |ticks| ==> ticks[k] <= lost) ==> now == Some(t) && reports == [])
    && (forall i :: FirstAfter(ticks, lost, i) ==>
          reports == [Lost] && now == if LaterOne(ticks, gone, i) then None else Some(t.(status := Lost)))
  }

  /** A tick's verdict on a target that may be gone. */
  ghost predicate Ticked(u: Option<Target>, v: Option<Target>, more: seq<Status>, now: nat) {
    if u.None? then v == None && more == []
    else TickVerdict(u.value, v, more, u.value.lastSeen, now, u.value.thresholds.confirmWindow,
                     u.value.thresholds.lostAfter, u.value.thresholds.removeAfter)
  }

  /** The target and its reports after a run. */
  ghost predicate StandsAt(setup: Setup, events: seq<Event>, mmsi: string, u: Option<Target>, log: seq<Status>) {
    Get(Run(setup, events), mmsi) == u && Log(setup, events, mmsi) == log
  }

  lemma TickStep(setup: Setup, events: seq<Event>, mmsi: string, u: Option<Target>, log: seq<Status>, now: nat)
    returns (v: Option<Target>, more: seq<Status>)
    requires StandsAt(setup, events, mmsi, u, log)
    ensures StandsAt(setup, events + [TickAt(now)], mmsi, v, log + more) && Ticked(u, v, more, now)
  {
    RunOneMore(setup, events, TickAt(now), mmsi);
    v, more := ApplyOne(setup, u, TickAt(now), mmsi), Reported(setup, u, TickAt(now), mmsi);
  }

  lemma FadesFurther(t: Target, u: Option<Target>, v: Option<Target>, reports: seq<Status>, more: seq<Status>,
                     ticks: seq<nat>, now: nat, lost: nat, gone: nat)
    requires t.status == Tracking && lost == t.lastSeen + t.thresholds.lostAfter && gone == lost + t.thresholds.removeAfter
    requires Faded(t, u, reports, ticks, lost, gone) && Ticked(u, v, more, now)
    ensures Faded(t, v, reports + more, ticks + [now], lost, gone)
  {
    var longer, all := ticks + [now], reports + more;
    assert reports + [] == reports;
    if k :| 0 <= k < |ticks| && ticks[k] > lost {
      var first := FirstLater(ticks, lost, k);
      assert longer[k] > lost;
      LaterOneMore(ticks, gone, first, now);
      forall i | FirstAfter(longer, lost, i)
        ensures all == [Lost] && v == if LaterOne(longer, gone, i) then None else Some(t.(status := Lost)) {
        assert i == first by {
          assert longer[first] == ticks[first];
        }
      }
    } else {
      assert u == Some(t) && reports == [];
      forall i | FirstAfter(longer, lost, i)
        ensures all == [Lost] && v == if LaterOne(longer, gone, i) then None else Some(t.(status := Lost)) {
        assert i == |ticks|;
      }
      assert longer[|ticks|] == now;
    }
  }

  lemma {:induction false} FirstLater(ticks: seq<nat>, limit: nat, k: nat) returns (i: nat)
    requires k < |ticks| && ticks[k] > limit
    ensures FirstAfter(ticks, limit, i)
    decreases k
  {
    if j :| 0 <= j < k && ticks[j] > limit {
      i := FirstLater(ticks, limit, j);
    } else {
      i := k;
    }
  }

  lemma LaterOneMore(ticks: seq<nat>, limit: nat, i: nat, now: nat)
    requires i < |ticks|
    ensures LaterOne(ticks + [now], limit, i) <==> LaterOne(ticks, limit, i) || now > limit
  {
    var more := ticks + [now];
    if j :| i < j < |ticks| && ticks[j] > limit {
      assert more[j] > limit;
    }
    assert more[|ticks|] == now;
  }

  /** A target tracked as `t` and reported as in `log` has faded as far as the ticks say. */
  ghost predicate Fading(setup: Setup, events: seq<Event>, mmsi: string, t: Target, log: seq<Status>, ticks: seq<nat>, lost: nat, gone: nat) {
    exists u, reports :: StandsAt(setup, events + TickEvents(ticks), mmsi, u, log + reports) && Faded(t, u, reports, ticks, lost, gone)
  }

  lemma TicksOneMore(events: seq<Event>, ticks: seq<nat>, now: nat)
    ensures events + TickEvents(ticks + [now]) == events + TickEvents(ticks) + [TickAt(now)]
  {
    assert (ticks + [now])[..|ticks|] == ticks;
  }

  lemma FadingStarts(setup: Setup, events: seq<Event>, mmsi: string, t: Target, log: seq<Status>, lost: nat, gone: nat)
    requires StandsAt(setup, events, mmsi, Some(t), log)
    ensures Fading(setup, events, mmsi, t, log, [], lost, gone)
  {
    assert events + TickEvents([]) == events && log + [] == log;
    assert StandsAt(setup, events + TickEvents([]), mmsi, Some(t), log + []);
  }

  lemma StandsFurther(setup: Setup, events: seq<Event>, mmsi: string, ticks: seq<nat>, now: nat, u: Option<Target>, log: seq<Status>,
                      reports: seq<Status>) returns (v: Option<Target>, more: seq<Status>)
    requires StandsAt(setup, events + TickEvents(ticks), mmsi, u, log + reports)
    ensures StandsAt(setup, events + TickEvents(ticks + [now]), mmsi, v, log + (reports + more)) && Ticked(u, v, more, now)
  {
    TicksOneMore(events, ticks, now);
    v, more := TickStep(setup, events + TickEvents(ticks), mmsi, u, log + reports, now);
    assert log + reports + more == log + (reports + more);
  }

  lemma FadingGoesOn(setup: Setup, events: seq<Event>, mmsi: string, t: Target, log: seq<Status>, ticks: seq<nat>, now: nat,
                     lost: nat, gone: nat)
    requires t.status == Tracking && lost == t.lastSeen + t.thresholds.lostAfter && gone == lost + t.thresholds.removeAfter
    requires Fading(setup, events, mmsi, t, log, ticks, lost, gone)
    ensures Fading(setup, events, mmsi, t, log, ticks + [now], lost, gone)
  {
    var u, reports :| StandsAt(setup, events + TickEvents(ticks), mmsi, u, log + reports) && Faded(t, u, reports, ticks, lost, gone);
    var v, more := StandsFurther(setup, events, mmsi, ticks, now, u, log, reports);
    FadesFurther(t, u, v, reports, more, ticks, now, lost, gone);
  }

  lemma {:induction false} OnEveryPrefix(holds: seq<nat> -> bool, ticks: seq<nat>)
    requires holds([]) && forall s, x :: holds(s) ==> holds(s + [x])
    ensures holds(ticks)
  {
    if ticks != [] {
      OnEveryPrefix(holds, ticks[..|ticks| - 1]);
      assert ticks[..|ticks| - 1] + [ticks[|ticks| - 1]] == ticks;
    }
  }

  lemma FadingAlways(setup: Setup, events: seq<Event>, mmsi: string, t: Target, log: seq<Status>, ticks: seq<nat>, lost: nat, gone: nat)
    requires t.status == Tracking && lost == t.lastSeen + t.thresholds.lostAfter && gone == lost + t.thresholds.removeAfter
    requires StandsAt(setup, events, mmsi, Some(t), log)
    ensures Fading(setup, events, mmsi, t, log, ticks, lost, gone)
  {
    FadingStarts(setup, events, mmsi, t, log, lost, gone);
    forall s, x | Fading(setup, events, mmsi, t, log, s, lost, gone) ensures Fading(setup, events, mmsi, t, log, s + [x], lost, gone) {
      FadingGoesOn(setup, events, mmsi, t, log, s, x, lost, gone);
    }
    OnEveryPrefix((s: seq<nat>) => Fading(setup, events, mmsi, t, log, s, lost, gone), ticks);
  }

  /** `heard` is the time of the last message. */
  ghost predicate HeardLast(setup: Setup, events: seq<Event>, mmsi: string, heard: nat) {
    LastHeard(setup, events, mmsi) == Some(heard)
  }

  lemma StandingIsSeen(setup: Setup, events: seq<Event>, mmsi: string, t: Target, log: seq<Status>, heard: nat, limits: Thresholds)
    requires StandsAt(setup, events, mmsi, Some(t), log) && HeardLast(setup, events, mmsi, heard) && limits == LimitsOf(setup, mmsi)
    ensures t.lastSeen == heard && t.thresholds == limits
  {
    LastHeardIsSeen(setup, events, mmsi);
  }

  /** Main result: a tracked target that is heard no more stays tracked until the first tick
      later than `lostAfter` past its last message; that tick reports the loss, once, and
      the next one later than `lostAfter + removeAfter` past it removes the target. */
  lemma SilentTargetFades(setup: Setup, events: seq<Event>, mmsi: string, t: Target, log: seq<Status>, ticks: seq<nat>,
                          heard: nat, limits: Thresholds)
    requires StandsAt(setup, events, mmsi, Some(t), log) && t.status == Tracking
    requires HeardLast(setup, events, mmsi, heard) && limits == LimitsOf(setup, mmsi)
    ensures Fading(setup, events, mmsi, t, log, ticks, heard + limits.lostAfter, heard + limits.lostAfter + limits.removeAfter)
  {
    StandingIsSeen(setup, events, mmsi, t, log, heard, limits);
    FadingAlways(setup, events, mmsi, t, log, ticks, heard + limits.lostAfter, heard + limits.lostAfter + limits.removeAfter);
  }

  // ----- what a message says -----

  /** Messages address the targets whose identity ends the context; the own vessel is none. */
  lemma AddressedIff(context: string, selfUri: string, mmsi: string)
    ensures Addressed(context, selfUri) == Some(mmsi)
       <==> context == "vessels.urn:mrn:imo:mmsi:" + mmsi && !(exists before :: context == before + selfUri)
  {
    assert |"vessels.self"| < |MMSI_CONTEXT|;
    if EndsWith(context, selfUri) {
      assert context == context[..|context| - |selfUri|] + selfUri;
    }
  }

  /** The `i`-th value is a complete position. */
  predicate Positions(values: seq<(string, Json)>, i: int) {
    && 0 <= i < |values| && values[i].0 == "navigation.position" && values[i].1.Obj?
    && "latitude" in values[i].1.fields && values[i].1.fields["latitude"].Num?
    && "longitude" in values[i].1.fields && values[i].1.fields["longitude"].Num?
  }

  predicate Speeds(values: seq<(string, Json)>, i: int) {
    0 <= i < |values| && values[i].0 == "navigation.speedOverGround"
  }

  predicate Courses(values: seq<(string, Json)>, i: int) {
    0 <= i < |values| && values[i].0 == "navigation.courseOverGroundTrue"
  }

  function NumOrNone(j: Json): Option<real> {
    if j.Num? then Some(j.n) else None
  }

  /** `i` is the last of the first `n` that meet the condition; -1 if there is none. */
  ghost predicate LastMeeting(meets: int -> bool, n: nat, i: int) {
    && -1 <= i < n && (i >= 0 ==> meets(i)) && forall k :: i < k < n && k >= 0 ==> !meets(k)
  }

  lemma OneIndexMore(meets: int -> bool, n: nat, i: int)
    requires LastMeeting(meets, n, i)
    ensures LastMeeting(meets, n + 1, if meets(n) then n else i)
  {}

  ghost predicate Told(was: Target, now: Target, values: seq<(string, Json)>, p: int, s: int, c: int)
    requires p < 0 || Positions(values, p)
    requires s < |values| && c < |values|
  {
    && now.position == (if p < 0 then was.position
                        else Some((values[p].1.fields["latitude"].n, values[p].1.fields["longitude"].n)))
    && now.sog == (if s < 0 then was.sog else NumOrNone(values[s].1))
    && now.cog == (if c < 0 then was.cog else NumOrNone(values[c].1))
  }

  lemma OneValueTold(was: Target, before: Target, values: seq<(string, Json)>, n: nat, p: int, s: int, c: int)
    requires n < |values| && p < n && s < n && c < n && (p < 0 || Positions(values, p)) && Told(was, before, values, p, s, c)
    ensures Told(was, TakeValue(before, values[n].0, values[n].1), values, if Positions(values, n) then n else p,
                 if Speeds(values, n) then n else s, if Courses(values, n) then n else c)
  {}

  /** A message leaves the target with its last complete position and its last speed and
      course; the latter two are forgotten if they are no numbers. */
  lemma {:induction false} LastValuesAreTold(t: Target, values: seq<(string, Json)>, n: nat) returns (p: int, s: int, c: int)
    requires n <= |values|
    ensures LastMeeting(i => Positions(values, i), n, p) && LastMeeting(i => Speeds(values, i), n, s)
    ensures LastMeeting(i => Courses(values, i), n, c)
    ensures Told(t, TakeValues(t, values[..n]), values, p, s, c)
  {
    if n == 0 {
      p, s, c := -1, -1, -1;
    } else {
      p, s, c := LastValuesAreTold(t, values, n - 1);
      assert values[..n][..n - 1] == values[..n - 1];
      OneValueTold(t, TakeValues(t, values[..n - 1]), values, n - 1, p, s, c);
      OneIndexMore(i => Positions(values, i), n - 1, p);
      OneIndexMore(i => Speeds(values, i), n - 1, s);
      OneIndexMore(i => Courses(values, i), n - 1, c);
      p := if Positions(values, n - 1) then n - 1 else p;
      s := if Speeds(values, n - 1) then n - 1 else s;
      c := if Courses(values, n - 1) then n - 1 else c;
    }
  }
}
