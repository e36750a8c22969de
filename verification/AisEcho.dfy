/** The AIS plugin hears itself: it subscribes to every path of every vessel, so the status
    deltas it emits come back to the tracker as messages of the target
    (crates/plugins/ais-status/src/lib.rs). */
module AisEcho {
  import opened Basics
  import opened JsonModel
  import opened AisTracker
  import opened AisRuns

  /** The tracker, and the status deltas under way to it: transitions reported but not
      yet heard, in order. */
  datatype Loop = Loop(targets: Targets, underway: seq<Transition>)

  datatype Action =
    | Hear(context: string, values: seq<(string, Json)>, now: nat)
    | TickNow(now: nat, reported: seq<Transition>)
    | Echo(values: seq<(string, Json)>, now: nat)

  /** Status deltas come back before the next tick. A tick reports its transitions in
      any order. */
  ghost predicate Enabled(l: Loop, a: Action) {
    match a
    case Hear(_, _, _) => true
    case TickNow(now, reported) => l.underway == [] && TickTransitions(l.targets, now, reported)
    case Echo(_, _) => l.underway != []
  }

  function Reports(t: Option<Transition>): seq<Transition> {
    if t.Some? then [t.value] else []
  }

  function Next(setup: Setup, l: Loop, a: Action): Loop {
    match a
    case Hear(context, values, now) =>
      var (targets, t) := UpdateTarget(l.targets, setup.config, setup.selfUri, context, values, now);
      Loop(targets, l.underway + Reports(t))
    case TickNow(now, reported) => Loop(Tick(l.targets, now), l.underway + reported)
    case Echo(values, now) =>
      if l.underway == [] then l
      else
        var (targets, t) := UpdateTarget(l.targets, setup.config, setup.selfUri, l.underway[0].context, values, now);
        Loop(targets, l.underway[1..] + Reports(t))
  }

  function Reach(setup: Setup, actions: seq<Action>): Loop {
    if actions == [] then Loop(map[], [])
    else Next(setup, Reach(setup, actions[..|actions| - 1]), actions[|actions| - 1])
  }

  ghost predicate Legal(setup: Setup, actions: seq<Action>) {
    actions == []
    || (Legal(setup, actions[..|actions| - 1]) && Enabled(Reach(setup, actions[..|actions| - 1]), actions[|actions| - 1]))
  }

  // ----- what the echo does -----

  predicate Confirmed(ts: Targets, mmsi: string) {
    mmsi in ts && ts[mmsi].status != Acquiring
  }

  predicate UnderWay(l: Loop, mmsi: string)
    requires mmsi in l.targets
  {
    exists i :: 0 <= i < |l.underway| && l.underway[i].context == l.targets[mmsi].context
  }

  /** Targets are filed under the identity their context addresses, and the delta that
      reports a loss is still under way while the target is lost. */
  ghost predicate LossUnderWay(setup: Setup, l: Loop) {
    forall k :: k in l.targets ==>
      && Addressed(l.targets[k].context, setup.selfUri) == Some(k)
      && (l.targets[k].status == Lost ==> UnderWay(l, k))
  }

  lemma HeardStatus(t: Target, values: seq<(string, Json)>, now: nat)
    ensures var u := Heard(t, values, now).0;
            u.context == t.context && u.status != Lost && (t.status != Acquiring ==> u.status == Tracking)
  {
    TakeValuesKeepsLifecycle(t, values);
  }

  /** A message changes the addressed target alone, which is not lost afterwards. */
  lemma MessageEffect(setup: Setup, ts: Targets, context: string, values: seq<(string, Json)>, now: nat, k: string)
    requires k in UpdateTarget(ts, setup.config, setup.selfUri, context, values, now).0
    requires k in ts ==> Addressed(ts[k].context, setup.selfUri) == Some(k)
    ensures var next := UpdateTarget(ts, setup.config, setup.selfUri, context, values, now).0;
            && Addressed(next[k].context, setup.selfUri) == Some(k)
            && (k in ts ==> next[k].context == ts[k].context)
            && (Addressed(context, setup.selfUri) == Some(k) ==> next[k].status != Lost)
            && (Addressed(context, setup.selfUri) != Some(k) ==> k in ts && next[k] == ts[k])
            && (Confirmed(ts, k) ==> next[k].status != Acquiring)
  {
    if Addressed(context, setup.selfUri) == Some(k) {
      HeardStatus(if k in ts then ts[k] else NewTarget(k, context, now, setup.config), values, now);
    }
  }

  lemma NextKeepsLossUnderWay(setup: Setup, l: Loop, a: Action)
    requires LossUnderWay(setup, l) && Enabled(l, a)
    ensures LossUnderWay(setup, Next(setup, l, a))
  {
    var next := Next(setup, l, a);
    forall k | k in next.targets
      ensures Addressed(next.targets[k].context, setup.selfUri) == Some(k)
      ensures next.targets[k].status == Lost ==> UnderWay(next, k)
    {
      match a
      case Hear(context, values, now) =>
        MessageEffect(setup, l.targets, context, values, now, k);
        if next.targets[k].status == Lost {
          var i :| 0 <= i < |l.underway| && l.underway[i].context == l.targets[k].context;
          assert next.underway[i] == l.underway[i];
        }
      case TickNow(now, reported) =>
        if next.targets[k].status == Lost {
          assert GoesLost(l.targets[k], now);
          var i :| 0 <= i < |reported| && reported[i].mmsi == k;
          assert next.underway[i] == reported[i];
        }
      case Echo(values, now) =>
        MessageEffect(setup, l.targets, l.underway[0].context, values, now, k);
        if next.targets[k].status == Lost {
          var i :| 0 <= i < |l.underway| && l.underway[i].context == l.targets[k].context;
          assert i != 0;
          assert next.underway[i - 1] == l.underway[i];
        }
    }
  }

  lemma {:induction false} AlwaysUnderWay(setup: Setup, actions: seq<Action>)
    requires Legal(setup, actions)
    ensures LossUnderWay(setup, Reach(setup, actions))
  {
    if actions != [] {
      var before := actions[..|actions| - 1];
      AlwaysUnderWay(setup, before);
      NextKeepsLossUnderWay(setup, Reach(setup, before), actions[|actions| - 1]);
    }
  }

  /** Main result: a reported loss undoes itself. When the status delta that reports it comes
      back, the target counts as heard again, and its re-acquisition is reported in turn. */
  lemma LossUndoesItself(setup: Setup, actions: seq<Action>, values: seq<(string, Json)>, now: nat, k: string)
    requires Legal(setup, actions)
    requires var l := Reach(setup, actions);
             l.underway != [] && k in l.targets && l.targets[k].status == Lost && l.underway[0].context == l.targets[k].context
    ensures var l := Reach(setup, actions); var next := Next(setup, l, Echo(values, now));
            && k in next.targets && next.targets[k].status == Tracking && next.targets[k].lastSeen == now
            && next.underway == l.underway[1..] + [Transition(l.targets[k].mmsi, l.targets[k].context, Lost, Tracking)]
  {
    AlwaysUnderWay(setup, actions);
    TakeValuesKeepsLifecycle(Reach(setup, actions).targets[k], values);
  }

  lemma NextKeepsConfirmed(setup: Setup, l: Loop, a: Action, k: string)
    requires LossUnderWay(setup, l) && Enabled(l, a) && Confirmed(l.targets, k)
    ensures Confirmed(Next(setup, l, a).targets, k)
  {
    match a
    case Hear(context, values, now) => MessageEffect(setup, l.targets, context, values, now, k);
    case TickNow(now, _) => assert l.targets[k].status != Lost;
    case Echo(values, now) => MessageEffect(setup, l.targets, l.underway[0].context, values, now, k);
  }

  /** Main result: so a confirmed target is never removed, however long nothing but the
      plugin itself speaks of it, and at every tick it is being tracked. */
  lemma {:induction false} ConfirmedStaysForever(setup: Setup, actions: seq<Action>, n: nat, k: string)
    requires Legal(setup, actions) && n <= |actions| && Confirmed(Reach(setup, actions[..n]).targets, k)
    ensures var l := Reach(setup, actions);
            Confirmed(l.targets, k) && (l.underway == [] ==> l.targets[k].status == Tracking)
  {
    AlwaysUnderWay(setup, actions);
    if n == |actions| {
      assert actions[..n] == actions;
    } else {
      var before := actions[..|actions| - 1];
      assert before[..n] == actions[..n];
      ConfirmedStaysForever(setup, before, n, k);
      AlwaysUnderWay(setup, before);
      NextKeepsConfirmed(setup, Reach(setup, before), actions[|actions| - 1], k);
    }
  }
}
