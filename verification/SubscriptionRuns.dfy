/** What the delivery policies promise over runs of the filter, from the decisions and
    their times alone (crates/signalk-store/src/subscription.rs). */
module SubscriptionRuns {
  import opened Basics
  import opened JsonModel
  import opened Deltas
  import opened Paths
  import opened Subscriptions

  /** What a subscription was last served, and when. */
  datatype Sending = Sending(value: Json, at: int)

  function LastSending(ds: seq<Decision>, key: string): Option<Sending> {
    if ds == [] then None
    else
      var d := ds[|ds| - 1];
      if d.mark.Some? && d.mark.value.key == key then Some(Sending(d.pv.value, d.mark.value.sent))
      else LastSending(ds[..|ds| - 1], key)
  }

  /** No subscription has been served yet. */
  ghost predicate NoneServed(states: States) {
    forall k :: k in states ==> states[k].lastSent == None
  }

  lemma {:induction false} LastSendingIsRecorded(states: States, t0: int, ds: seq<Decision>, t1: int, key: string)
    requires LegalRun(states, t0, ds, t1) && NoneServed(states) && key in states
    ensures var end, last := AfterAll(states, ds), LastSending(ds, key);
            && key in end
            && end[key].(lastSent := None, lastValue := None) == states[key].(lastSent := None, lastValue := None)
            && end[key].lastSent == (if last.Some? then Some(last.value.at) else None)
            && (last.Some? ==> end[key].lastValue == Some(last.value.value) && last.value.at <= t1)
  {
    if ds != [] {
      LastSendingIsRecorded(states, t0, ds[..|ds| - 1], ds[|ds| - 1].start, key);
    }
  }

  // ----- what is owed and what is forbidden -----

  /** A matching value is kept if the subscription was never served, or last served at
      least `gapMs` milliseconds ago. */
  predicate Owes(d: Decision, pattern: string, last: Option<Sending>, gapMs: nat) {
    MatchesPattern(pattern, d.pv.path) && (last.None? || d.start - last.value.at >= gapMs * 1_000_000) ==> d.mark.Some?
  }

  /** The subscription is served matching values only, and not sooner than that. */
  predicate Spares(d: Decision, key: string, pattern: string, last: Option<Sending>, gapMs: nat) {
    d.mark.Some? && d.mark.value.key == key ==>
      MatchesPattern(pattern, d.pv.path) && (last.Some? ==> d.mark.value.checked - last.value.at >= gapMs * 1_000_000)
  }

  lemma {:induction false} DecisionWithin(states: States, t0: int, ds: seq<Decision>, t1: int, n: nat)
    requires LegalRun(states, t0, ds, t1) && n < |ds|
    ensures LegalRun(states, t0, ds[..n], ds[n].start) && Legal(AfterAll(states, ds[..n]), ds[n])
  {
    var before := ds[..|ds| - 1];
    if n < |ds| - 1 {
      DecisionWithin(states, t0, before, ds[|ds| - 1].start, n);
      assert before[..n] == ds[..n];
    }
  }

  lemma DecisionMeets(mid: States, d: Decision, key: string, s: SubState, last: Option<Sending>, gapMs: nat)
    requires Legal(mid, d) && key in mid && mid[key] == s
    requires s.lastSent == (if last.Some? then Some(last.value.at) else None) && (last.Some? ==> last.value.at <= d.start)
    requires last.Some? ==> s.lastValue == Some(last.value.value)
    requires last.Some? ==>
      match s.policy
      case Instant => gapMs == s.minPeriodMs
      case Ideal => gapMs == (if d.pv.value == last.value.value then s.periodMs else s.minPeriodMs)
      case Fixed => gapMs == s.periodMs
    ensures Owes(d, s.path, last, gapMs) && Spares(d, key, s.path, last, gapMs)
  {
    assert d.mark.None? ==> !Deliverable(mid[key], d.pv.path, d.pv.value, d.start);
  }

  /** What the policies say of a decision, given the subscription's last service:
      Instant waits for the minimum period, Fixed for the period, Ideal for the minimum
      period if the value has changed and for the period if it has not. */
  ghost predicate Policed(s: SubState, key: string, last: Option<Sending>, d: Decision) {
    var same := last.Some? && d.pv.value == last.value.value;
    && (s.policy == Instant ==> Owes(d, s.path, last, s.minPeriodMs) && Spares(d, key, s.path, last, s.minPeriodMs))
    && (s.policy == Fixed ==> Owes(d, s.path, last, s.periodMs) && Spares(d, key, s.path, last, s.periodMs))
    && (s.policy == Ideal && same ==> Owes(d, s.path, last, s.periodMs) && Spares(d, key, s.path, last, s.periodMs))
    && (s.policy == Ideal && !same ==> Owes(d, s.path, last, s.minPeriodMs) && Spares(d, key, s.path, last, s.minPeriodMs))
  }

  /** Main result: at every point of every run, whatever the other subscriptions, each
      subscription is owed matching values and spared others by its policy. */
  lemma PoliciesDecide(states: States, t0: int, ds: seq<Decision>, t1: int, n: nat, key: string)
    requires LegalRun(states, t0, ds, t1) && NoneServed(states) && n < |ds| && key in states
    ensures Policed(states[key], key, LastSending(ds[..n], key), ds[n])
  {
    var s, d, last := states[key], ds[n], LastSending(ds[..n], key);
    DecisionWithin(states, t0, ds, t1, n);
    LastSendingIsRecorded(states, t0, ds[..n], d.start, key);
    var mid := AfterAll(states, ds[..n]);
    var gapMs := match s.policy
      case Instant => s.minPeriodMs
      case Ideal => if last.Some? && d.pv.value == last.value.value then s.periodMs else s.minPeriodMs
      case Fixed => s.periodMs;
    DecisionMeets(mid, d, key, mid[key], last, gapMs);
  }

  /** The same for the values of one delta, after any earlier ones. */
  lemma FilteredValuesArePoliced(states: States, t0: int, earlier: seq<Decision>, t1: int, updates: seq<Update>,
                                 trace: seq<seq<Decision>>, t2: int, i: nat, j: nat, key: string) returns (ds: seq<Decision>)
    requires LegalRun(states, t0, earlier, t1) && FilterRun(AfterAll(states, earlier), t1, updates, trace, t2)
    requires NoneServed(states) && key in states && i < |updates| && j < |updates[i].values|
    ensures trace[i][j].pv == updates[i].values[j] && earlier <= ds && ds + [trace[i][j]] <= earlier + Flatten(trace)
    ensures Policed(states[key], key, LastSending(ds, key), trace[i][j])
  {
    var n := FlattenContains(trace, i, j);
    RunsConcat(states, t0, earlier, t1, Flatten(trace), t2);
    ds := earlier + Flatten(trace)[..n];
    PrefixOfConcat(earlier, Flatten(trace), n);
    PoliciesDecide(states, t0, earlier + Flatten(trace), t2, |earlier| + n, key);
  }

  lemma PrefixOfConcat(a: seq<Decision>, b: seq<Decision>, n: nat)
    requires n < |b|
    ensures (a + b)[..|a| + n] == a + b[..n] && (a + b)[|a| + n] == b[n] && a + b[..n] + [b[n]] <= a + b
  {}

  // ----- is the client up to date? -----

  /** The last value offered at a path, and the last one delivered there. */
  function LastOffered(ds: seq<Decision>, path: string): Option<Json> {
    if ds == [] then None
    else if ds[|ds| - 1].pv.path == path then Some(ds[|ds| - 1].pv.value)
    else LastOffered(ds[..|ds| - 1], path)
  }

  function LastDelivered(ds: seq<Decision>, path: string): Option<Json> {
    if ds == [] then None
    else if ds[|ds| - 1].pv.path == path && ds[|ds| - 1].mark.Some? then Some(ds[|ds| - 1].pv.value)
    else LastDelivered(ds[..|ds| - 1], path)
  }

  /** One Ideal subscription without a minimum period, as a client's only one. */
  ghost predicate OnlyIdeal(states: States, key: string) {
    states.Keys == {key} && states[key].policy == Ideal && states[key].minPeriodMs == 0
  }

  lemma LastSentIsPast(states: States, t0: int, ds: seq<Decision>, n: nat, t1: int, key: string)
    requires LegalRun(states, t0, ds, t1) && NoneServed(states) && key in states && n < |ds|
    ensures LastSending(ds[..n], key).Some? ==> LastSending(ds[..n], key).value.at <= ds[n].start
  {
    DecisionWithin(states, t0, ds, t1, n);
    LastSendingIsRecorded(states, t0, ds[..n], ds[n].start, key);
  }

  lemma {:induction false} OnePathIsCurrent(states: States, t0: int, ds: seq<Decision>, t1: int, key: string, path: string)
    requires LegalRun(states, t0, ds, t1) && NoneServed(states) && OnlyIdeal(states, key)
    requires forall n :: 0 <= n < |ds| ==> (MatchesPattern(states[key].path, ds[n].pv.path) <==> ds[n].pv.path == path)
    ensures LastDelivered(ds, path) == LastOffered(ds, path)
    ensures LastOffered(ds, path) == if LastSending(ds, key).Some? then Some(LastSending(ds, key).value.value) else None
  {
    if ds != [] {
      var n := |ds| - 1;
      OnePathIsCurrent(states, t0, ds[..n], ds[n].start, key, path);
      PoliciesDecide(states, t0, ds, t1, n, key);
      LastSentIsPast(states, t0, ds, n, t1, key);
      SettingsFixed(states, ds[..n]);
    }
  }

  lemma {:induction false} ZeroPeriodIsCurrent(states: States, t0: int, ds: seq<Decision>, t1: int, key: string, path: string)
    requires LegalRun(states, t0, ds, t1) && NoneServed(states) && OnlyIdeal(states, key) && states[key].periodMs == 0
    requires MatchesPattern(states[key].path, path)
    ensures LastDelivered(ds, path) == LastOffered(ds, path)
  {
    if ds != [] {
      var n := |ds| - 1;
      ZeroPeriodIsCurrent(states, t0, ds[..n], ds[n].start, key, path);
      PoliciesDecide(states, t0, ds, t1, n, key);
      LastSentIsPast(states, t0, ds, n, t1, key);
    }
  }

  /** A first value at one path that equals the last one at another is dropped, and the
      client has none at all: the last value is kept per subscription, not per path. */
  lemma EqualValueIsDropped(states: States, key: string, a: string, b: string, value: Json)
    requires NoneServed(states) && OnlyIdeal(states, key) && states[key].periodMs > 0 && a != b
    requires MatchesPattern(states[key].path, a) && MatchesPattern(states[key].path, b)
    ensures var ds := [Decision(PathValue(a, value), 0, Some(Mark(key, 0, 0)), 0), Decision(PathValue(b, value), 0, None, 0)];
            LegalRun(states, 0, ds, 0) && LastOffered(ds, b) == Some(value) && LastDelivered(ds, b) == None
  {
    var first, second := Decision(PathValue(a, value), 0, Some(Mark(key, 0, 0)), 0), Decision(PathValue(b, value), 0, None, 0);
    var ds := [first, second];
    assert ds[..1] == [first] && [first][..0] == [];
    assert AfterAll(states, []) == states && AfterAll(states, [first]) == AfterDecision(states, first);
    assert LegalRun(states, 0, [], 0) && LegalRun(states, 0, [first], 0);
    assert LastDelivered([first], b) == LastDelivered([], b);
  }

  /** After every run the client has the last value offered at every path it asked for. */
  ghost predicate StaysCurrent(states: States, key: string)
    requires key in states
  {
    forall t0, ds, t1, path :: LegalRun(states, t0, ds, t1) && MatchesPattern(states[key].path, path)
                               ==> LastDelivered(ds, path) == LastOffered(ds, path)
  }

  /** Main result: such a client always stays current if and only if its pattern matches
      no two paths or its period is zero. */
  lemma IdealStaysCurrentIff(states: States, key: string)
    requires NoneServed(states) && OnlyIdeal(states, key)
    ensures StaysCurrent(states, key) <==>
      || states[key].periodMs == 0
      || forall a, b :: MatchesPattern(states[key].path, a) && MatchesPattern(states[key].path, b) ==> a == b
  {
    if a, b :| a != b && MatchesPattern(states[key].path, a) && MatchesPattern(states[key].path, b) {
      if states[key].periodMs > 0 {
        EqualValueIsDropped(states, key, a, b, Null);
      } else {
        forall t0, ds, t1, path | LegalRun(states, t0, ds, t1) && MatchesPattern(states[key].path, path)
          ensures LastDelivered(ds, path) == LastOffered(ds, path) {
          ZeroPeriodIsCurrent(states, t0, ds, t1, key, path);
        }
      }
    } else {
      forall t0, ds, t1, path | LegalRun(states, t0, ds, t1) && MatchesPattern(states[key].path, path)
        ensures LastDelivered(ds, path) == LastOffered(ds, path) {
        OnePathIsCurrent(states, t0, ds, t1, key, path);
      }
    }
  }
}
