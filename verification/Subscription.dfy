/** Delivery policies of streaming subscriptions and the delta filter
    (crates/signalk-store/src/subscription.rs). */
module Subscriptions {
  import opened Basics
  import opened JsonModel
  import opened Deltas
  import opened Paths

  datatype Policy = Instant | Ideal | Fixed

  const NANOS_PER_MILLI := 1_000_000

  /** A subscription's pattern, policy, periods and what it last sent. */
  datatype SubState = SubState(path: string, periodMs: nat, policy: Policy, minPeriodMs: nat,
                               lastSent: Option<int>, lastValue: Option<Json>)

  /** `now.duration_since(last)`, zero when `last` lies ahead. */
  function Elapsed(now: int, last: int): nat {
    if now >= last then now - last else 0
  }

  /** The gap, in nanoseconds, the policy demands before sending `value`. */
  function GapFor(s: SubState, value: Json): nat {
    NANOS_PER_MILLI *
    match s.policy
    case Instant => s.minPeriodMs
    case Ideal => if value != (if s.lastValue.Some? then s.lastValue.value else Null) then s.minPeriodMs else s.periodMs
    case Fixed => s.periodMs
  }

  predicate Deliverable(s: SubState, path: string, value: Json, now: int) {
    MatchesPattern(s.path, path) && (s.lastSent.None? || Elapsed(now, s.lastSent.value) >= GapFor(s, value))
  }

  function SentAt(s: SubState, value: Json, now: int): SubState {
    s.(lastSent := Some(now), lastValue := Some(value))
  }

  // ----- runs of the filter -----

  type States = map<string, SubState>

  /** A subscription found deliverable at `checked` and marked at `sent`. */
  datatype Mark = Mark(key: string, checked: int, sent: int)

  /** What the filter did with one path value between two clock readings. */
  datatype Decision = Decision(pv: PathValue, start: int, mark: Option<Mark>, end: int)

  function AfterDecision(states: States, d: Decision): States {
    if d.mark.Some? && d.mark.value.key in states
    then states[d.mark.value.key := SentAt(states[d.mark.value.key], d.pv.value, d.mark.value.sent)]
    else states
  }

  function AfterAll(states: States, ds: seq<Decision>): States {
    if ds == [] then states else AfterDecision(AfterAll(states, ds[..|ds| - 1]), ds[|ds| - 1])
  }

  /** A value goes to some deliverable subscription; it is dropped only if none was. */
  ghost predicate Legal(states: States, d: Decision) {
    && d.start <= d.end
    && match d.mark
       case Some(m) => m.key in states && d.start <= m.checked <= m.sent <= d.end
                       && Deliverable(states[m.key], d.pv.path, d.pv.value, m.checked)
       case None => forall k :: k in states ==> !Deliverable(states[k], d.pv.path, d.pv.value, d.start)
  }

  /** Decisions taken one after the other between the clock readings `t0` and `t1`. */
  ghost predicate LegalRun(states: States, t0: int, ds: seq<Decision>, t1: int) {
    if ds == [] then t0 <= t1
    else
      var d := ds[|ds| - 1];
      && LegalRun(states, t0, ds[..|ds| - 1], d.start)
      && Legal(AfterAll(states, ds[..|ds| - 1]), d)
      && d.end <= t1
  }

  function Flatten(trace: seq<seq<Decision>>): seq<Decision> {
    if trace == [] then [] else Flatten(trace[..|trace| - 1]) + trace[|trace| - 1]
  }

  /** The values some decision delivered. */
  function Kept(ds: seq<Decision>): seq<PathValue> {
    if ds == [] then []
    else Kept(ds[..|ds| - 1]) + if ds[|ds| - 1].mark.Some? then [ds[|ds| - 1].pv] else []
  }

  function KeptUpdate(u: Update, ds: seq<Decision>): seq<Update> {
    if Kept(ds) == [] then [] else [Update(u.source, u.timestamp, Kept(ds))]
  }

  function KeptUpdates(updates: seq<Update>, trace: seq<seq<Decision>>, n: nat): seq<Update>
    requires n <= |updates| && n <= |trace|
  {
    if n == 0 then [] else KeptUpdates(updates, trace, n - 1) + KeptUpdate(updates[n - 1], trace[n - 1])
  }

  /** One decision per path value, update by update. */
  ghost predicate Covers(values: seq<PathValue>, ds: seq<Decision>) {
    |ds| == |values| && forall j :: 0 <= j < |ds| ==> ds[j].pv == values[j]
  }

  /** `trace` is a run of the filter over `updates` from `states`, ending at `t1`. */
  ghost predicate FilterRun(states: States, t0: int, updates: seq<Update>, trace: seq<seq<Decision>>, t1: int) {
    && |trace| == |updates|
    && (forall i :: 0 <= i < |updates| ==> Covers(updates[i].values, trace[i]))
    && LegalRun(states, t0, Flatten(trace), t1)
  }

  // ----- the objects -----

  /** The monotone system clock. */
  class MonotoneClock {
    var now: int

    constructor () {
      now := 0;
    }

    method Read() returns (t: int)
      modifies this
      ensures t == now && old(now) <= now
    {
      var passed: int :| passed >= 0;
      now := now + passed;
      t := now;
    }
  }

  class ActiveSubscription {
    const context: string
    const path: string
    const periodMs: nat
    const policy: Policy
    const minPeriodMs: nat
    var lastSent: Option<int>
    var lastValue: Option<Json>

    ghost function State(): SubState
      reads this
    {
      SubState(path, periodMs, policy, minPeriodMs, lastSent, lastValue)
    }

    constructor (context: string, path: string, periodMs: nat, policy: Policy, minPeriodMs: nat)
      ensures this.context == context
      ensures State() == SubState(path, periodMs, policy, minPeriodMs, None, None)
    {
      this.context, this.path, this.periodMs := context, path, periodMs;
      this.policy, this.minPeriodMs := policy, minPeriodMs;
      lastSent, lastValue := None, None;
    }

    method ShouldDeliver(path: string, value: Json, now: int) returns (b: bool)
      ensures b == Deliverable(State(), path, value, now)
    {
      if !MatchesPattern(this.path, path) {
        return false;
      }
      if lastSent.None? {
        return true;
      }
      var elapsed := Elapsed(now, lastSent.value);
      match policy
      case Instant =>
        b := elapsed >= minPeriodMs * NANOS_PER_MILLI;
      case Ideal =>
        var last := if lastValue.Some? then lastValue.value else Null;
        if value != last {
          b := elapsed >= minPeriodMs * NANOS_PER_MILLI;
        } else {
          b := elapsed >= periodMs * NANOS_PER_MILLI;
        }
      case Fixed =>
        b := elapsed >= periodMs * NANOS_PER_MILLI;
    }

    method MarkSent(value: Json, now: int)
      modifies this
      ensures State() == SentAt(old(State()), value, now)
    {
      lastSent := Some(now);
      lastValue := Some(value);
    }
  }

  type Table = map<string, ActiveSubscription>

  ghost predicate Owned(subs: Table) {
    forall j, k :: j in subs && k in subs && j != k ==> subs[j] != subs[k]
  }

  ghost function StatesOf(subs: Table): States
    reads subs.Values
  {
    map k | k in subs :: subs[k].State()
  }

  lemma DeliverableLater(s: SubState, path: string, value: Json, t: int, later: int)
    requires t <= later && Deliverable(s, path, value, t)
    ensures Deliverable(s, path, value, later)
  {}

  method MarkOne(subs: Table, key: string, value: Json, now: int)
    requires Owned(subs) && key in subs
    modifies subs[key]
    ensures StatesOf(subs) == old(StatesOf(subs))[key := SentAt(old(StatesOf(subs))[key], value, now)]
  {
    subs[key].MarkSent(value, now);
  }

  /** The loop over the subscriptions, in any order, until one takes the value. */
  method OfferValue(pv: PathValue, subs: Table, clock: MonotoneClock) returns (matched: bool, ghost d: Decision)
    requires Owned(subs)
    modifies subs.Values, clock
    ensures d.pv == pv && matched == d.mark.Some?
    ensures old(clock.now) == d.start && d.end == clock.now
    ensures Legal(old(StatesOf(subs)), d)
    ensures StatesOf(subs) == AfterDecision(old(StatesOf(subs)), d)
  {
    ghost var start, states := clock.now, StatesOf(subs);
    var todo := subs.Keys;
    while todo != {}
      invariant todo <= subs.Keys && start <= clock.now
      invariant StatesOf(subs) == states
      invariant forall k :: k in subs.Keys - todo ==> !Deliverable(states[k], pv.path, pv.value, start)
    {
      var key :| key in todo;
      var now := clock.Read();
      assert StatesOf(subs) == states;
      assert states[key] == subs[key].State();
      var due := subs[key].ShouldDeliver(pv.path, pv.value, now);
      if due {
        var sent := clock.Read();
        MarkOne(subs, key, pv.value, sent);
        d := Decision(pv, start, Some(Mark(key, now, sent)), sent);
        return true, d;
      }
      if Deliverable(states[key], pv.path, pv.value, start) {
        DeliverableLater(states[key], pv.path, pv.value, start, now);
      }
      todo := todo - {key};
    }
    matched, d := false, Decision(pv, start, None, clock.now);
  }

  lemma OneDecisionMore(states: States, t0: int, ds: seq<Decision>, d: Decision, t1: int)
    requires LegalRun(states, t0, ds, d.start) && Legal(AfterAll(states, ds), d) && d.end <= t1
    ensures LegalRun(states, t0, ds + [d], t1)
    ensures AfterAll(states, ds + [d]) == AfterDecision(AfterAll(states, ds), d)
    ensures Kept(ds + [d]) == Kept(ds) + if d.mark.Some? then [d.pv] else []
  {
    assert (ds + [d])[..|ds|] == ds;
  }

  method FilterUpdate(u: Update, subs: Table, clock: MonotoneClock) returns (matched: seq<PathValue>, ghost ds: seq<Decision>)
    requires Owned(subs)
    modifies subs.Values, clock
    ensures Covers(u.values, ds) && matched == Kept(ds)
    ensures LegalRun(old(StatesOf(subs)), old(clock.now), ds, clock.now)
    ensures StatesOf(subs) == AfterAll(old(StatesOf(subs)), ds)
  {
    ghost var states, t0 := StatesOf(subs), clock.now;
    matched, ds := [], [];
    for j := 0 to |u.values|
      invariant Covers(u.values[..j], ds) && matched == Kept(ds)
      invariant LegalRun(states, t0, ds, clock.now)
      invariant StatesOf(subs) == AfterAll(states, ds)
    {
      ghost var d;
      var taken;
      taken, d := OfferValue(u.values[j], subs, clock);
      OneDecisionMore(states, t0, ds, d, clock.now);
      assert matched + [] == matched;
      if taken {
        matched := matched + [u.values[j]];
      }
      ds := ds + [d];
    }
  }

  /** What was kept of the first updates. */
  ghost predicate KeptSoFar(updates: seq<Update>, trace: seq<seq<Decision>>, out: seq<Update>) {
    && |trace| <= |updates| && out == KeptUpdates(updates, trace, |trace|)
    && (forall k :: 0 <= k < |trace| ==> Covers(updates[k].values, trace[k]))
  }

  lemma KeepsFurther(updates: seq<Update>, trace: seq<seq<Decision>>, out: seq<Update>, ds: seq<Decision>)
    requires KeptSoFar(updates, trace, out) && |trace| < |updates| && Covers(updates[|trace|].values, ds)
    ensures KeptSoFar(updates, trace + [ds], out + KeptUpdate(updates[|trace|], ds))
  {
    KeptMore(updates, trace, ds);
  }

  lemma RunsFurther(states: States, t0: int, trace: seq<seq<Decision>>, t1: int, ds: seq<Decision>, t2: int)
    requires LegalRun(states, t0, Flatten(trace), t1) && LegalRun(AfterAll(states, Flatten(trace)), t1, ds, t2)
    ensures LegalRun(states, t0, Flatten(trace + [ds]), t2)
    ensures AfterAll(states, Flatten(trace + [ds])) == AfterAll(AfterAll(states, Flatten(trace)), ds)
  {
    FlattenMore(trace, ds);
    RunsConcat(states, t0, Flatten(trace), t1, ds, t2);
  }

  lemma FlattenMore(trace: seq<seq<Decision>>, ds: seq<Decision>)
    ensures Flatten(trace + [ds]) == Flatten(trace) + ds
  {
    assert (trace + [ds])[..|trace|] == trace;
  }

  lemma KeptMore(updates: seq<Update>, trace: seq<seq<Decision>>, ds: seq<Decision>)
    requires |trace| < |updates|
    ensures KeptUpdates(updates, trace + [ds], |trace| + 1)
         == KeptUpdates(updates, trace, |trace|) + KeptUpdate(updates[|trace|], ds)
  {
    KeptUpdatesAgree(updates, trace, trace + [ds], |trace|);
  }

  /** Filters a delta for one client; `trace` records every decision taken. */
  method FilterDelta(delta: Delta, subs: Table, clock: MonotoneClock)
    returns (filtered: Option<Delta>, ghost trace: seq<seq<Decision>>)
    requires Owned(subs)
    modifies subs.Values, clock
    ensures FilterRun(old(StatesOf(subs)), old(clock.now), delta.updates, trace, clock.now)
    ensures StatesOf(subs) == AfterAll(old(StatesOf(subs)), Flatten(trace))
    ensures var kept := KeptUpdates(delta.updates, trace, |delta.updates|);
            filtered == if kept == [] then None else Some(Delta(delta.context, kept))
  {
    ghost var states, t0 := StatesOf(subs), clock.now;
    var updates := delta.updates;
    var out := [];
    trace := [];
    for i := 0 to |updates|
      invariant |trace| == i && KeptSoFar(updates, trace, out)
      invariant LegalRun(states, t0, Flatten(trace), clock.now)
      invariant StatesOf(subs) == AfterAll(states, Flatten(trace))
    {
      ghost var t1, ds := clock.now, [];
      var matched;
      matched, ds := FilterUpdate(updates[i], subs, clock);
      KeepsFurther(updates, trace, out, ds);
      RunsFurther(states, t0, trace, t1, ds, clock.now);
      assert out + [] == out;
      if matched != [] {
        out := out + [Update(updates[i].source, updates[i].timestamp, matched)];
      }
      trace := trace + [ds];
    }
    filtered := if out == [] then None else Some(Delta(delta.context, out));
  }

  lemma {:induction false} KeptUpdatesAgree(updates: seq<Update>, trace: seq<seq<Decision>>, more: seq<seq<Decision>>, n: nat)
    requires n <= |updates| && n <= |trace| && n <= |more| && forall k :: 0 <= k < n ==> more[k] == trace[k]
    ensures KeptUpdates(updates, more, n) == KeptUpdates(updates, trace, n)
  {
    if n > 0 {
      KeptUpdatesAgree(updates, trace, more, n - 1);
    }
  }

  /** Runs of the filter compose: a run over several deltas is again a legal run. */
  lemma {:induction false} RunsConcat(states: States, t0: int, a: seq<Decision>, t1: int, b: seq<Decision>, t2: int)
    requires LegalRun(states, t0, a, t1) && LegalRun(AfterAll(states, a), t1, b, t2)
    ensures LegalRun(states, t0, a + b, t2)
    ensures AfterAll(states, a + b) == AfterAll(AfterAll(states, a), b)
  {
    if b == [] {
      assert a + b == a;
      LegalRunLater(states, t0, a, t1, t2);
    } else {
      var d := b[|b| - 1];
      RunsConcat(states, t0, a, t1, b[..|b| - 1], d.start);
      assert (a + b)[..|a + b| - 1] == a + b[..|b| - 1];
    }
  }

  lemma LegalRunLater(states: States, t0: int, ds: seq<Decision>, t1: int, t2: int)
    requires LegalRun(states, t0, ds, t1) && t1 <= t2
    ensures LegalRun(states, t0, ds, t2)
  {}

  // ----- how often a subscription is served -----

  /** The times at which a subscription was marked as sent. */
  function SentTimes(ds: seq<Decision>, key: string): seq<int> {
    if ds == [] then []
    else
      var d := ds[|ds| - 1];
      SentTimes(ds[..|ds| - 1], key) + if d.mark.Some? && d.mark.value.key == key then [d.mark.value.sent] else []
  }

  /** The least gap a policy ever allows, in nanoseconds. */
  function MinimumGap(s: SubState): nat {
    NANOS_PER_MILLI *
    match s.policy
    case Instant => s.minPeriodMs
    case Ideal => if s.periodMs < s.minPeriodMs then s.periodMs else s.minPeriodMs
    case Fixed => s.periodMs
  }

  ghost predicate Spaced(times: seq<int>, gap: int) {
    forall i :: 0 < i < |times| ==> times[i] - times[i - 1] >= gap
  }

  lemma {:induction false} SendsAreSpaced(states: States, t0: int, ds: seq<Decision>, t1: int, key: string)
    requires LegalRun(states, t0, ds, t1) && key in states
    ensures var times, end := SentTimes(ds, key), AfterAll(states, ds);
            && Spaced(times, MinimumGap(states[key]))
            && key in end && MinimumGap(end[key]) == MinimumGap(states[key])
            && (times != [] ==> end[key].lastSent == Some(times[|times| - 1]) && times[|times| - 1] <= t1)
  {
    if ds != [] {
      var before, d := ds[..|ds| - 1], ds[|ds| - 1];
      SendsAreSpaced(states, t0, before, d.start, key);
      var s, times := AfterAll(states, before)[key], SentTimes(before, key);
      assert times + [] == times;
      if d.mark.Some? && d.mark.value.key == key && times != [] {
        assert GapFor(s, d.pv.value) >= MinimumGap(s);
        assert d.mark.value.sent - times[|times| - 1] >= MinimumGap(s);
      }
    }
  }

  /** How many of the times fall into the window [a, a + w]. */
  function CountIn(times: seq<int>, a: int, w: nat): nat {
    if times == [] then 0
    else CountIn(times[..|times| - 1], a, w) + if a <= times[|times| - 1] <= a + w then 1 else 0
  }

  lemma {:induction false} SpacedCount(times: seq<int>, gap: int, a: int, w: nat)
    requires Spaced(times, gap) && gap > 0
    ensures var n := CountIn(times, a, w);
            n > 0 ==> times != [] && a + (n - 1) * gap <= times[|times| - 1] && (n - 1) * gap <= w
  {
    if times != [] {
      var before := times[..|times| - 1];
      SpacedCount(before, gap, a, w);
      var n := CountIn(before, a, w);
      if n > 0 {
        assert times[|times| - 1] >= times[|times| - 2] + gap;
        assert before[|before| - 1] == times[|times| - 2];
        assert a + n * gap == a + (n - 1) * gap + gap;
      }
    }
  }

  /** Main result: over every run of the filter, whatever the deltas, clock readings
      and map orders, a subscription is served at most w / gap + 1 times in any
      window of w nanoseconds. */
  lemma SendRateIsBounded(states: States, t0: int, ds: seq<Decision>, t1: int, key: string, a: int, w: nat)
    requires LegalRun(states, t0, ds, t1) && key in states && MinimumGap(states[key]) > 0
    ensures CountIn(SentTimes(ds, key), a, w) <= w / MinimumGap(states[key]) + 1
  {
    SendsAreSpaced(states, t0, ds, t1, key);
    SpacedCountBound(SentTimes(ds, key), MinimumGap(states[key]), a, w);
  }

  lemma SpacedCountBound(times: seq<int>, gap: int, a: int, w: nat)
    requires Spaced(times, gap) && gap > 0
    ensures CountIn(times, a, w) <= w / gap + 1
  {
    SpacedCount(times, gap, a, w);
    var n := CountIn(times, a, w);
    if n > 0 {
      DivisionBound(n - 1, gap, w);
    }
  }

  lemma DivisionBound(n: nat, gap: int, w: nat)
    requires gap > 0 && n * gap <= w
    ensures n <= w / gap
  {
    var d := n - w / gap;
    assert w == (w / gap) * gap + w % gap;
    assert d * gap == n * gap - (w / gap) * gap;
    MultipleIsLarger(d, gap);
  }

  lemma MultipleIsLarger(d: int, gap: int)
    requires gap > 0
    ensures d >= 1 ==> d * gap >= gap
  {}

  // ----- what reaches an eager client -----

  ghost predicate Eager(states: States) {
    forall k :: k in states ==> states[k].policy == Instant && states[k].minPeriodMs == 0
  }

  ghost predicate AnyPatternMatches(states: States, path: string) {
    exists k :: k in states && MatchesPattern(states[k].path, path)
  }

  ghost function MatchingValues(states: States, values: seq<PathValue>): seq<PathValue> {
    if values == [] then []
    else
      var pv := values[|values| - 1];
      MatchingValues(states, values[..|values| - 1]) + if AnyPatternMatches(states, pv.path) then [pv] else []
  }

  ghost function MatchingUpdates(states: States, updates: seq<Update>, n: nat): seq<Update>
    requires n <= |updates|
  {
    if n == 0 then []
    else
      var u := updates[n - 1];
      var values := MatchingValues(states, u.values);
      MatchingUpdates(states, updates, n - 1) + if values == [] then [] else [Update(u.source, u.timestamp, values)]
  }

  /** Filtering never changes patterns, policies or the set of subscriptions. */
  lemma {:induction false} SettingsFixed(states: States, ds: seq<Decision>)
    ensures var end := AfterAll(states, ds);
            end.Keys == states.Keys
            && forall k :: k in states ==> end[k].path == states[k].path && end[k].policy == states[k].policy
                                           && end[k].minPeriodMs == states[k].minPeriodMs
  {
    if ds != [] {
      SettingsFixed(states, ds[..|ds| - 1]);
    }
  }

  /** Every value a run delivers is matched by some pattern; an eager client gets all of them. */
  lemma {:induction false} EagerDecisions(states: States, t0: int, ds: seq<Decision>, t1: int, k: nat)
    requires LegalRun(states, t0, ds, t1) && k < |ds|
    ensures ds[k].mark.Some? ==> AnyPatternMatches(states, ds[k].pv.path)
    ensures Eager(states) ==> (ds[k].mark.Some? <==> AnyPatternMatches(states, ds[k].pv.path))
  {
    var before, d := ds[..|ds| - 1], ds[|ds| - 1];
    if k < |ds| - 1 {
      EagerDecisions(states, t0, before, d.start, k);
    } else {
      var mid := AfterAll(states, before);
      SettingsFixed(states, before);
      if Eager(states) && d.mark.None? {
        forall key | key in states ensures !MatchesPattern(states[key].path, d.pv.path) {
          assert GapFor(mid[key], d.pv.value) == 0;
          assert !Deliverable(mid[key], d.pv.path, d.pv.value, d.start);
        }
      }
    }
  }

  lemma {:induction false} KeptValues(states: States, values: seq<PathValue>, ds: seq<Decision>)
    requires Covers(values, ds)
    requires forall j :: 0 <= j < |ds| ==> (ds[j].mark.Some? <==> AnyPatternMatches(states, ds[j].pv.path))
    ensures Kept(ds) == MatchingValues(states, values)
  {
    if ds != [] {
      KeptValues(states, values[..|values| - 1], ds[..|ds| - 1]);
    }
  }

  lemma {:induction false} FlattenContains(trace: seq<seq<Decision>>, i: nat, j: nat) returns (k: nat)
    requires i < |trace| && j < |trace[i]|
    ensures k < |Flatten(trace)| && Flatten(trace)[k] == trace[i][j]
  {
    var before := trace[..|trace| - 1];
    if i < |before| {
      k := FlattenContains(before, i, j);
    } else {
      k := |Flatten(before)| + j;
    }
  }

  /** Main result: with eager subscriptions only, the filter returns exactly the values
      some pattern matches, in order, for every map order. */
  lemma EagerFilterIsExact(states: States, t0: int, updates: seq<Update>, trace: seq<seq<Decision>>, t1: int)
    requires Eager(states) && FilterRun(states, t0, updates, trace, t1)
    ensures KeptUpdates(updates, trace, |updates|) == MatchingUpdates(states, updates, |updates|)
  {
    forall i, j | 0 <= i < |trace| && 0 <= j < |trace[i]|
      ensures trace[i][j].mark.Some? <==> AnyPatternMatches(states, trace[i][j].pv.path)
    {
      var k := FlattenContains(trace, i, j);
      EagerDecisions(states, t0, Flatten(trace), t1, k);
    }
    EagerUpdates(states, updates, trace, |updates|);
  }

  lemma {:induction false} EagerUpdates(states: States, updates: seq<Update>, trace: seq<seq<Decision>>, n: nat)
    requires n <= |updates| == |trace| && forall i :: 0 <= i < |updates| ==> Covers(updates[i].values, trace[i])
    requires forall i, j :: 0 <= i < |trace| && 0 <= j < |trace[i]|
               ==> (trace[i][j].mark.Some? <==> AnyPatternMatches(states, trace[i][j].pv.path))
    ensures KeptUpdates(updates, trace, n) == MatchingUpdates(states, updates, n)
  {
    if n > 0 {
      EagerUpdates(states, updates, trace, n - 1);
      KeptValues(states, updates[n - 1].values, trace[n - 1]);
    }
  }
}
