/** What the value store guarantees over whole runs of deltas and configuration changes. */
module StoreRuns {
  import opened Basics
  import opened Deltas
  import opened Store

  // ----- runs -----

  datatype Command =
    | Receive(delta: Delta, clock: Clock)
    | Priorities(priorities: map<string, u16>)
    | Ttls(ttls: map<string, u64>)

  /** The database and the broadcast log after a run. */
  function Execute(db: Database, cmds: seq<Command>): (Database, seq<Delta>) {
    if cmds == [] then (db, [])
    else
      var before := Execute(db, cmds[..|cmds| - 1]);
      match cmds[|cmds| - 1]
      case Receive(delta, clock) =>
        var after := Deliver(before.0, delta, clock);
        (after.0, before.1 + if after.1.Some? then [after.1.value] else [])
      case Priorities(p) => (Step(before.0, SetPriorities(p)), before.1)
      case Ttls(t) => (Step(before.0, SetTtls(t)), before.1)
  }

  // ----- a run as a sequence of events -----

  function ValueEvents(uri: string, u: Update, now: nat -> int, n: nat): seq<Event>
    requires n <= |u.values|
  {
    if n == 0 then [] else ValueEvents(uri, u, now, n - 1) + [WriteOf(uri, u, n - 1, now(n - 1))]
  }

  function UpdateEvents(uri: string, updates: seq<Update>, clock: Clock, n: nat): seq<Event>
    requires n <= |updates|
  {
    if n == 0 then [Open(uri)]
    else UpdateEvents(uri, updates, clock, n - 1)
         + ValueEvents(uri, updates[n - 1], clock(n - 1), |updates[n - 1].values|)
  }

  function CommandEvents(selfUri: string, c: Command): seq<Event> {
    match c
    case Receive(delta, clock) =>
      (match ResolveVessel(delta.context, selfUri)
       case None => []
       case Some(uri) => UpdateEvents(uri, delta.updates, clock, |delta.updates|))
    case Priorities(p) => [SetPriorities(p)]
    case Ttls(t) => [SetTtls(t)]
  }

  function AllEvents(selfUri: string, cmds: seq<Command>): seq<Event> {
    if cmds == [] then []
    else AllEvents(selfUri, cmds[..|cmds| - 1]) + CommandEvents(selfUri, cmds[|cmds| - 1])
  }

  lemma RunOneMore(db: Database, events: seq<Event>, e: Event)
    ensures Run(db, events + [e]) == Step(Run(db, events), e)
  {
    assert (events + [e])[..|events|] == events;
  }

  lemma {:induction false} RunConcat(db: Database, a: seq<Event>, b: seq<Event>)
    ensures Run(db, a + b) == Run(Run(db, a), b)
  {
    if b == [] {
      assert a + b == a;
    } else {
      RunConcat(db, a, b[..|b| - 1]);
      assert (a + b)[..|a + b| - 1] == a + b[..|b| - 1];
    }
  }

  ghost predicate Reaches(db: Database, events: seq<Event>, after: Database) {
    after == Run(db, events)
  }

  lemma ReachesOneMore(db: Database, events: seq<Event>, mid: Database, e: Event)
    requires Reaches(db, events, mid)
    ensures Reaches(db, events + [e], Step(mid, e))
  {
    RunOneMore(db, events, e);
  }

  lemma NextValueReaches(db: Database, events: seq<Event>, before: (Database, seq<PathValue>), uri: string, u: Update, n: nat, now: int)
    requires n < |u.values| && Reaches(db, events, before.0)
    ensures Reaches(db, events + [WriteOf(uri, u, n, now)], TakeValue(before, uri, u, n, now).0)
  {
    ReachesOneMore(db, events, before.0, WriteOf(uri, u, n, now));
  }

  lemma {:induction false} TakeValuesIsRun(db: Database, uri: string, u: Update, now: nat -> int, n: nat)
    requires n <= |u.values|
    ensures Reaches(db, ValueEvents(uri, u, now, n), TakeValues(db, uri, u, now, n).0)
  {
    if n > 0 {
      TakeValuesIsRun(db, uri, u, now, n - 1);
      NextValueReaches(db, ValueEvents(uri, u, now, n - 1), TakeValues(db, uri, u, now, n - 1), uri, u, n - 1, now(n - 1));
    }
  }

  lemma UpdateReaches(db: Database, events: seq<Event>, before: (Database, seq<Update>), uri: string, u: Update, now: nat -> int)
    requires Reaches(db, events, before.0)
    ensures Reaches(db, events + ValueEvents(uri, u, now, |u.values|), ThenUpdate(before, uri, u, now).0)
  {
    TakeValuesIsRun(before.0, uri, u, now, |u.values|);
    RunConcat(db, events, ValueEvents(uri, u, now, |u.values|));
  }

  lemma OpenReaches(db: Database, uri: string)
    ensures Reaches(db, [Open(uri)], Step(db, Open(uri)))
  {
    RunOneMore(db, [], Open(uri));
    assert [] + [Open(uri)] == [Open(uri)];
  }

  lemma UpdatesReachFurther(db: Database, uri: string, updates: seq<Update>, clock: Clock, n: nat)
    requires n < |updates| && Reaches(db, UpdateEvents(uri, updates, clock, n), TakeUpdates(db, uri, updates, clock, n).0)
    ensures Reaches(db, UpdateEvents(uri, updates, clock, n + 1), TakeUpdates(db, uri, updates, clock, n + 1).0)
  {
    UpdateReaches(db, UpdateEvents(uri, updates, clock, n), TakeUpdates(db, uri, updates, clock, n), uri, updates[n], clock(n));
  }

  ghost predicate UpdatesReachAt(db: Database, uri: string, updates: seq<Update>, clock: Clock, n: nat) {
    n <= |updates| ==> Reaches(db, UpdateEvents(uri, updates, clock, n), TakeUpdates(db, uri, updates, clock, n).0)
  }

  lemma UpdatesReach(db: Database, uri: string, updates: seq<Update>, clock: Clock, n: nat)
    requires n <= |updates|
    ensures Reaches(db, UpdateEvents(uri, updates, clock, n), TakeUpdates(db, uri, updates, clock, n).0)
  {
    OpenReaches(db, uri);
    forall k: nat | UpdatesReachAt(db, uri, updates, clock, k) ensures UpdatesReachAt(db, uri, updates, clock, k + 1) {
      if k < |updates| {
        UpdatesReachFurther(db, uri, updates, clock, k);
      }
    }
    UpTo((k: nat) => UpdatesReachAt(db, uri, updates, clock, k), n);
  }

  lemma {:induction false} UpTo(holds: nat -> bool, n: nat)
    requires holds(0) && forall k: nat :: holds(k) ==> holds(k + 1)
    ensures holds(n)
  {
    if n > 0 {
      UpTo(holds, n - 1);
      assert holds(n - 1 + 1);
    }
  }

  lemma {:induction false} SelfUriFixed(db: Database, events: seq<Event>)
    ensures Run(db, events).selfUri == db.selfUri
  {
    if events != [] {
      SelfUriFixed(db, events[..|events| - 1]);
    }
  }

  /** A run of commands is a run of its events, so what holds after every run of
      events holds after every run of deltas and configuration changes. */
  lemma {:induction false} ExecuteIsRun(db: Database, cmds: seq<Command>)
    ensures Execute(db, cmds).0 == Run(db, AllEvents(db.selfUri, cmds))
    ensures Execute(db, cmds).0.selfUri == db.selfUri
  {
    SelfUriFixed(db, AllEvents(db.selfUri, cmds));
    if cmds != [] {
      var before, c := cmds[..|cmds| - 1], cmds[|cmds| - 1];
      ExecuteIsRun(db, before);
      var mid, events := Execute(db, before).0, AllEvents(db.selfUri, before);
      RunConcat(db, events, CommandEvents(db.selfUri, c));
      match c
      case Receive(delta, clock) =>
        if uri: string :| ResolveVessel(delta.context, db.selfUri) == Some(uri) {
          UpdatesReach(mid, uri, delta.updates, clock, |delta.updates|);
        }
      case Priorities(p) => RunOneMore(mid, [], SetPriorities(p));
      case Ttls(t) => RunOneMore(mid, [], SetTtls(t));
    }
  }

  /** What an event does to the active values ... */
  lemma StepLookup(db: Database, e: Event, uri: string, path: string)
    ensures Lookup(Step(db, e), uri, path)
         == if e.Write? && e.uri == uri && e.path == path && Accepts(db, uri, path, e.value.source, e.now)
            then Some(e.value) else Lookup(db, uri, path)
  {}

  /** ... and to the per-source index of the self vessel. */
  lemma StepIndexed(db: Database, e: Event, path: string, source: string)
    ensures Indexed(Step(db, e), path, source)
         == if !e.Write? || e.path != path then Indexed(db, path, source)
            else if Evicted(db, e.uri, path, e.now) == Some(source) then None
            else if e.uri == db.selfUri && e.value.source == source then Some(e.value)
            else Indexed(db, path, source)
  {}

  /** Every value written at a path of a vessel, in order, stored or not. */
  function History(events: seq<Event>, uri: string, path: string): seq<StoredValue> {
    if events == [] then []
    else
      var e := events[|events| - 1];
      History(events[..|events| - 1], uri, path)
      + if e.Write? && e.uri == uri && e.path == path then [e.value] else []
  }

  /** The last value a source wrote. */
  function LastBy(h: seq<StoredValue>, source: string): Option<StoredValue> {
    if h == [] then None
    else if h[|h| - 1].source == source then Some(h[|h| - 1])
    else LastBy(h[..|h| - 1], source)
  }

  lemma LastByAppend(h: seq<StoredValue>, v: StoredValue, source: string)
    ensures LastBy(h + [v], source) == if v.source == source then Some(v) else LastBy(h, source)
  {
    assert (h + [v])[..|h|] == h;
  }

  // ----- every run: values are current for their source -----

  /** The active value and all index entries are their own sources' latest writes. */
  ghost predicate Current(db: Database, events: seq<Event>) {
    && (forall uri, path :: Lookup(db, uri, path).Some? ==>
          LastBy(History(events, uri, path), Lookup(db, uri, path).value.source) == Lookup(db, uri, path))
    && (forall path, source :: Indexed(db, path, source).Some? ==>
          LastBy(History(events, db.selfUri, path), source) == Indexed(db, path, source))
  }

  lemma HistoryStep(events: seq<Event>, e: Event, uri: string, path: string, source: string)
    ensures LastBy(History(events + [e], uri, path), source)
         == if e.Write? && e.uri == uri && e.path == path && e.value.source == source then Some(e.value)
            else LastBy(History(events, uri, path), source)
  {
    assert (events + [e])[..|events|] == events;
    if e.Write? && e.uri == uri && e.path == path {
      LastByAppend(History(events, uri, path), e.value, source);
    } else {
      assert History(events + [e], uri, path) == History(events, uri, path) + [];
      assert History(events, uri, path) + [] == History(events, uri, path);
    }
  }

  lemma StepKeepsCurrent(db: Database, events: seq<Event>, e: Event)
    requires Current(db, events)
    ensures Current(Step(db, e), events + [e])
  {
    var next := Step(db, e);
    forall uri, path | Lookup(next, uri, path).Some?
      ensures LastBy(History(events + [e], uri, path), Lookup(next, uri, path).value.source) == Lookup(next, uri, path)
    {
      StepLookup(db, e, uri, path);
      HistoryStep(events, e, uri, path, Lookup(next, uri, path).value.source);
    }
    forall path, source | Indexed(next, path, source).Some?
      ensures LastBy(History(events + [e], next.selfUri, path), source) == Indexed(next, path, source)
    {
      StepIndexed(db, e, path, source);
      HistoryStep(events, e, db.selfUri, path, source);
    }
  }

  /** Main result: under any time-to-live settings and any priority or time-to-live
      changes in mid-run, the active value at a path is the latest write of its own
      source there, and so is every entry of the per-source index. */
  lemma {:induction false} AlwaysCurrent(selfUri: string, events: seq<Event>)
    ensures Current(Run(New(selfUri), events), events)
  {
    if events != [] {
      var before, e := events[..|events| - 1], events[|events| - 1];
      AlwaysCurrent(selfUri, before);
      StepKeepsCurrent(Run(New(selfUri), before), before, e);
      assert before + [e] == events;
    }
  }

  // ----- fixed priorities, no time to live: who wins -----

  /** `h[i]` is the last write among those of minimal priority number. */
  ghost predicate Winner(priorities: map<string, u16>, h: seq<StoredValue>, i: int) {
    && 0 <= i < |h|
    && (forall j :: 0 <= j < |h| ==> Priority(priorities, h[i].source) <= Priority(priorities, h[j].source))
    && (forall j :: i < j < |h| ==> Priority(priorities, h[i].source) < Priority(priorities, h[j].source))
  }

  ghost predicate OnlyData(events: seq<Event>) {
    forall i :: 0 <= i < |events| ==> events[i].Open? || events[i].Write?
  }

  function Start(selfUri: string, priorities: map<string, u16>): Database {
    New(selfUri).(priorities := priorities)
  }

  /** The active value is the winner of the whole history, and on the self vessel
      it is also the index entry of its source. */
  ghost predicate Arbitrated(db: Database, events: seq<Event>, uri: string, path: string) {
    var h := History(events, uri, path);
    if h == [] then Lookup(db, uri, path) == None else exists i :: ArbitratedBy(db, h, uri, path, i)
  }

  /** A further write wins if its priority number is no larger than the winner's. */
  lemma WinnerStep(priorities: map<string, u16>, h: seq<StoredValue>, i: int, v: StoredValue)
    requires h == [] || Winner(priorities, h, i)
    ensures h == [] || Priority(priorities, v.source) <= Priority(priorities, h[i].source)
            ==> Winner(priorities, h + [v], |h|)
    ensures h != [] && Priority(priorities, v.source) > Priority(priorities, h[i].source)
            ==> Winner(priorities, h + [v], i)
  {}

  lemma HistoryAppend(events: seq<Event>, e: Event, uri: string, path: string)
    ensures History(events + [e], uri, path)
         == if e.Write? && e.uri == uri && e.path == path then History(events, uri, path) + [e.value]
            else History(events, uri, path)
  {
    assert (events + [e])[..|events|] == events;
    assert History(events, uri, path) + [] == History(events, uri, path);
  }

  lemma NothingStale(db: Database, uri: string, path: string, now: int)
    requires db.ttls == map[]
    ensures Evicted(db, uri, path, now) == None
  {}

  /** The `i`-th write of the history is the winner, active and indexed. */
  ghost predicate ArbitratedBy(db: Database, h: seq<StoredValue>, uri: string, path: string, i: int) {
    && Winner(db.priorities, h, i) && Lookup(db, uri, path) == Some(h[i])
    && (uri == db.selfUri ==> Indexed(db, path, h[i].source) == Some(h[i]))
  }

  lemma ForeignEventArbitrates(db: Database, h: seq<StoredValue>, e: Event, uri: string, path: string, i: int)
    requires db.ttls == map[] && (e.Open? || e.Write?) && !(e.Write? && e.uri == uri && e.path == path)
    requires ArbitratedBy(db, h, uri, path, i)
    ensures ArbitratedBy(Step(db, e), h, uri, path, i)
  {
    StepLookup(db, e, uri, path);
    StepIndexed(db, e, path, h[i].source);
    if e.Write? {
      NothingStale(db, e.uri, e.path, e.now);
    }
  }

  lemma OwnWriteArbitrates(db: Database, h: seq<StoredValue>, e: Event, uri: string, path: string, i: int)
    requires db.ttls == map[] && e.Write? && e.uri == uri && e.path == path
    requires if h == [] then Lookup(db, uri, path) == None else ArbitratedBy(db, h, uri, path, i)
    ensures ArbitratedBy(Step(db, e), h + [e.value], uri, path, if Accepts(db, uri, path, e.value.source, e.now) then |h| else i)
  {
    NothingStale(db, uri, path, e.now);
    WinnerStep(db.priorities, h, i, e.value);
    StepLookup(db, e, uri, path);
    StepIndexed(db, e, path, e.value.source);
    if h != [] {
      StepIndexed(db, e, path, h[i].source);
    }
  }

  lemma StepArbitrates(db: Database, events: seq<Event>, e: Event, uri: string, path: string)
    requires db.ttls == map[] && (e.Open? || e.Write?)
    requires Arbitrated(db, events, uri, path)
    ensures Arbitrated(Step(db, e), events + [e], uri, path)
  {
    var h := History(events, uri, path);
    HistoryAppend(events, e, uri, path);
    var i := 0;
    if h != [] {
      i :| ArbitratedBy(db, h, uri, path, i);
    }
    if e.Write? && e.uri == uri && e.path == path {
      OwnWriteArbitrates(db, h, e, uri, path, i);
    } else if h != [] {
      ForeignEventArbitrates(db, h, e, uri, path, i);
    } else {
      StepLookup(db, e, uri, path);
    }
  }

  /** Main result: with fixed priorities and no time to live, after any run of
      deltas, at every path of every vessel. */
  lemma {:induction false} LastMinimalPriorityWins(selfUri: string, priorities: map<string, u16>, events: seq<Event>,
                                                   uri: string, path: string)
    requires OnlyData(events)
    ensures Arbitrated(Run(Start(selfUri, priorities), events), events, uri, path)
    ensures var db := Run(Start(selfUri, priorities), events); db.ttls == map[] && db.priorities == priorities
  {
    if events != [] {
      var before, e := events[..|events| - 1], events[|events| - 1];
      LastMinimalPriorityWins(selfUri, priorities, before, uri, path);
      StepArbitrates(Run(Start(selfUri, priorities), before), before, e, uri, path);
      assert before + [e] == events;
    }
  }

  lemma {:induction false} ValueEventsAreData(uri: string, u: Update, now: nat -> int, n: nat)
    requires n <= |u.values|
    ensures OnlyData(ValueEvents(uri, u, now, n))
  {
    if n > 0 {
      ValueEventsAreData(uri, u, now, n - 1);
    }
  }

  lemma {:induction false} UpdateEventsAreData(uri: string, updates: seq<Update>, clock: Clock, n: nat)
    requires n <= |updates|
    ensures OnlyData(UpdateEvents(uri, updates, clock, n))
  {
    if n > 0 {
      UpdateEventsAreData(uri, updates, clock, n - 1);
      ValueEventsAreData(uri, updates[n - 1], clock(n - 1), |updates[n - 1].values|);
    }
  }

  lemma {:induction false} DeltaEventsAreData(selfUri: string, cmds: seq<Command>)
    requires forall i :: 0 <= i < |cmds| ==> cmds[i].Receive?
    ensures OnlyData(AllEvents(selfUri, cmds))
  {
    if cmds != [] {
      var c := cmds[|cmds| - 1];
      DeltaEventsAreData(selfUri, cmds[..|cmds| - 1]);
      if uri: string :| ResolveVessel(c.delta.context, selfUri) == Some(uri) {
        UpdateEventsAreData(uri, c.delta.updates, c.clock, |c.delta.updates|);
      }
    }
  }

  /** The same for the store itself: after any run of deltas. */
  lemma DeltaRunsAreArbitrated(selfUri: string, priorities: map<string, u16>, cmds: seq<Command>, uri: string, path: string)
    requires forall i :: 0 <= i < |cmds| ==> cmds[i].Receive?
    ensures Arbitrated(Execute(Start(selfUri, priorities), cmds).0, AllEvents(selfUri, cmds), uri, path)
  {
    DeltaEventsAreData(selfUri, cmds);
    ExecuteIsRun(Start(selfUri, priorities), cmds);
    LastMinimalPriorityWins(selfUri, priorities, AllEvents(selfUri, cmds), uri, path);
  }

  // ----- the broadcast as replication log -----

  type Replica = map<(string, string), StoredValue>

  function ReplayValues(rep: Replica, uri: string, source: string, timestamp: int, pvs: seq<PathValue>): Replica {
    if pvs == [] then rep
    else
      var pv := pvs[|pvs| - 1];
      ReplayValues(rep, uri, source, timestamp, pvs[..|pvs| - 1])[(uri, pv.path) := StoredValue(pv.value, source, timestamp)]
  }

  function ReplayUpdates(rep: Replica, uri: string, updates: seq<Update>): Replica {
    if updates == [] then rep
    else
      var u := updates[|updates| - 1];
      ReplayValues(ReplayUpdates(rep, uri, updates[..|updates| - 1]), uri, SourceRef(u.source), u.timestamp, u.values)
  }

  /** A subscriber that stores every broadcast vessel value, last write wins. */
  function ReplayDelta(rep: Replica, selfUri: string, d: Delta): Replica {
    match ResolveVessel(d.context, selfUri)
    case Some(uri) => ReplayUpdates(rep, uri, d.updates)
    case None => rep
  }

  function ReplayLog(rep: Replica, selfUri: string, log: seq<Delta>): Replica {
    if log == [] then rep
    else ReplayDelta(ReplayLog(rep, selfUri, log[..|log| - 1]), selfUri, log[|log| - 1])
  }

  ghost predicate InSync(rep: Replica, db: Database) {
    forall uri, path :: Get(rep, (uri, path)) == Lookup(db, uri, path)
  }

  lemma ReplayMoreValues(rep: Replica, uri: string, source: string, timestamp: int, a: seq<PathValue>, b: seq<PathValue>)
    requires |b| <= 1
    ensures ReplayValues(rep, uri, source, timestamp, a + b)
         == if b == [] then ReplayValues(rep, uri, source, timestamp, a)
            else ReplayValues(rep, uri, source, timestamp, a)[(uri, b[0].path) := StoredValue(b[0].value, source, timestamp)]
  {
    if b == [] {
      assert a + b == a;
    } else {
      assert (a + b)[..|a|] == a;
    }
  }

  lemma ReplayMoreUpdates(rep: Replica, uri: string, a: seq<Update>, b: seq<Update>)
    requires |b| <= 1
    ensures ReplayUpdates(rep, uri, a + b) == ReplayUpdates(ReplayUpdates(rep, uri, a), uri, b)
  {
    if b == [] {
      assert a + b == a;
    } else {
      assert (a + b)[..|a|] == a && b[..0] == [];
    }
  }

  /** The replica has caught up within an update, at one path of one vessel. */
  ghost predicate CaughtUpAt(rep: Replica, uri: string, u: Update, r: (Database, seq<PathValue>), vessel: string, path: string) {
    Get(ReplayValues(rep, uri, SourceRef(u.source), u.timestamp, r.1), (vessel, path)) == Lookup(r.0, vessel, path)
  }

  lemma OneMoreValueInSync(rep: Replica, before: (Database, seq<PathValue>), uri: string, u: Update, n: nat, now: int,
                           vessel: string, path: string)
    requires n < |u.values| && CaughtUpAt(rep, uri, u, before, vessel, path)
    ensures CaughtUpAt(rep, uri, u, TakeValue(before, uri, u, n, now), vessel, path)
  {
    var src, pv := SourceRef(u.source), u.values[n];
    var more := if Accepts(before.0, uri, pv.path, src, now) then [pv] else [];
    ReplayMoreValues(rep, uri, src, u.timestamp, before.1, more);
    StepLookup(before.0, WriteOf(uri, u, n, now), vessel, path);
  }

  lemma NoValueInSync(rep: Replica, uri: string, u: Update, r: (Database, seq<PathValue>), vessel: string, path: string)
    requires r.1 == [] && Get(rep, (vessel, path)) == Lookup(r.0, vessel, path)
    ensures CaughtUpAt(rep, uri, u, r, vessel, path)
  {}

  lemma {:induction false} ValuesInSync(rep: Replica, db: Database, uri: string, u: Update, now: nat -> int, n: nat,
                                        r: (Database, seq<PathValue>), vessel: string, path: string)
    requires Get(rep, (vessel, path)) == Lookup(db, vessel, path)
    requires n <= |u.values| && r == TakeValues(db, uri, u, now, n)
    ensures CaughtUpAt(rep, uri, u, r, vessel, path)
  {
    if n == 0 {
      NoValueInSync(rep, uri, u, r, vessel, path);
    } else {
      var before := TakeValues(db, uri, u, now, n - 1);
      ValuesInSync(rep, db, uri, u, now, n - 1, before, vessel, path);
      OneMoreValueInSync(rep, before, uri, u, n - 1, now(n - 1), vessel, path);
    }
  }

  lemma ReplayOneUpdate(rep: Replica, uri: string, u: Update)
    ensures ReplayUpdates(rep, uri, [u]) == ReplayValues(rep, uri, SourceRef(u.source), u.timestamp, u.values)
  {
    assert [u][..0] == [];
  }

  lemma UpdateInSync(rep: Replica, db: Database, uri: string, u: Update, now: nat -> int)
    requires InSync(rep, db)
    ensures InSync(ReplayUpdates(rep, uri, TakeUpdate(db, uri, u, now).1), TakeUpdate(db, uri, u, now).0)
  {
    var after := TakeValues(db, uri, u, now, |u.values|);
    ReplayOneUpdate(rep, uri, Update(u.source, u.timestamp, after.1));
    forall vessel, path
      ensures Get(ReplayUpdates(rep, uri, TakeUpdate(db, uri, u, now).1), (vessel, path)) == Lookup(after.0, vessel, path) {
      ValuesInSync(rep, db, uri, u, now, |u.values|, after, vessel, path);
    }
  }

  /** The replica has caught up with a database and what was broadcast on the way to it. */
  ghost predicate CaughtUp(rep: Replica, uri: string, r: (Database, seq<Update>)) {
    InSync(ReplayUpdates(rep, uri, r.1), r.0)
  }

  lemma OneMoreUpdateInSync(rep: Replica, before: (Database, seq<Update>), uri: string, u: Update, now: nat -> int)
    requires CaughtUp(rep, uri, before)
    ensures CaughtUp(rep, uri, ThenUpdate(before, uri, u, now))
  {
    UpdateInSync(ReplayUpdates(rep, uri, before.1), before.0, uri, u, now);
    ReplayMoreUpdates(rep, uri, before.1, TakeUpdate(before.0, uri, u, now).1);
  }

  lemma OpenInSync(rep: Replica, db: Database, uri: string)
    requires InSync(rep, db)
    ensures CaughtUp(rep, uri, (Step(db, Open(uri)), []))
  {
    forall vessel, path ensures Get(rep, (vessel, path)) == Lookup(Step(db, Open(uri)), vessel, path) {
      StepLookup(db, Open(uri), vessel, path);
    }
  }

  lemma {:induction false} UpdatesInSync(rep: Replica, db: Database, uri: string, updates: seq<Update>, clock: Clock, n: nat)
    requires InSync(rep, db) && n <= |updates|
    ensures CaughtUp(rep, uri, TakeUpdates(db, uri, updates, clock, n))
  {
    if n == 0 {
      OpenInSync(rep, db, uri);
    } else {
      UpdatesInSync(rep, db, uri, updates, clock, n - 1);
      OneMoreUpdateInSync(rep, TakeUpdates(db, uri, updates, clock, n - 1), uri, updates[n - 1], clock(n - 1));
    }
  }

  lemma DeliverInSync(rep: Replica, selfUri: string, log: seq<Delta>, db: Database, delta: Delta, clock: Clock)
    requires db.selfUri == selfUri && InSync(ReplayLog(rep, selfUri, log), db)
    ensures var (after, sent) := Deliver(db, delta, clock);
            InSync(ReplayLog(rep, selfUri, log + if sent.Some? then [sent.value] else []), after)
  {
    var sent := Deliver(db, delta, clock).1;
    if sent.Some? {
      assert (log + [sent.value])[..|log|] == log;
    }
    assert log + [] == log;
    match ResolveVessel(delta.context, selfUri)
    case None =>
    case Some(uri) =>
      UpdatesInSync(ReplayLog(rep, selfUri, log), db, uri, delta.updates, clock, |delta.updates|);
  }

  /** Main result: a replica that starts from the store's values and applies the
      broadcast log always equals the store, through any run of deltas and
      configuration changes, although rejected values are never broadcast. */
  lemma {:induction false} ReplicaEqualsStore(rep: Replica, db: Database, cmds: seq<Command>)
    requires InSync(rep, db)
    ensures var (end, log) := Execute(db, cmds); InSync(ReplayLog(rep, db.selfUri, log), end)
  {
    if cmds != [] {
      var before, c := cmds[..|cmds| - 1], cmds[|cmds| - 1];
      ReplicaEqualsStore(rep, db, before);
      ExecuteIsRun(db, before);
      var (mid, log) := Execute(db, before);
      if c.Receive? {
        DeliverInSync(rep, db.selfUri, log, mid, c.delta, c.clock);
      }
    }
  }

  // ----- the shape of a broadcast -----

  /** `f` picks `m` of `n` positions, in order. */
  ghost predicate Picks(f: seq<int>, m: nat, n: nat) {
    && |f| == m
    && (forall k :: 0 <= k < m ==> 0 <= f[k] < n)
    && (forall j, k :: 0 <= j < k < m ==> f[j] < f[k])
  }

  /** `a` arises from `b` by leaving values out. */
  ghost predicate SubValues(a: seq<PathValue>, b: seq<PathValue>) {
    exists f :: Picks(f, |a|, |b|) && forall k :: 0 <= k < |a| ==> a[k] == b[f[k]]
  }

  /** `x` is the update `y` with values left out, though not all of them. */
  ghost predicate SubUpdate(x: Update, y: Update) {
    x.source == y.source && x.timestamp == y.timestamp && x.values != [] && SubValues(x.values, y.values)
  }

  ghost predicate SubUpdates(a: seq<Update>, b: seq<Update>) {
    exists f :: Picks(f, |a|, |b|) && forall k :: 0 <= k < |a| ==> SubUpdate(a[k], b[f[k]])
  }

  lemma {:induction false} StoredValuesAreSub(db: Database, uri: string, u: Update, now: nat -> int, n: nat)
    returns (f: seq<int>)
    requires n <= |u.values|
    ensures var a := TakeValues(db, uri, u, now, n).1;
            Picks(f, |a|, n) && forall k :: 0 <= k < |a| ==> a[k] == u.values[f[k]]
  {
    f := [];
    if n > 0 {
      f := StoredValuesAreSub(db, uri, u, now, n - 1);
      if |TakeValues(db, uri, u, now, n).1| > |f| {
        f := f + [n - 1];
      }
    }
  }

  lemma StoredUpdateIsSub(db: Database, uri: string, u: Update, now: nat -> int)
    ensures var one := TakeUpdate(db, uri, u, now).1;
            |one| <= 1 && (one != [] ==> SubUpdate(one[0], u))
  {
    var f := StoredValuesAreSub(db, uri, u, now, |u.values|);
  }

  ghost predicate PicksUpdates(f: seq<int>, a: seq<Update>, updates: seq<Update>, n: nat) {
    n <= |updates| && Picks(f, |a|, n) && forall k :: 0 <= k < |a| ==> SubUpdate(a[k], updates[f[k]])
  }

  lemma PickOneMore(f: seq<int>, earlier: seq<Update>, more: seq<Update>, updates: seq<Update>, n: nat) returns (g: seq<int>)
    requires n < |updates| && PicksUpdates(f, earlier, updates, n)
    requires |more| <= 1 && (more != [] ==> SubUpdate(more[0], updates[n]))
    ensures PicksUpdates(g, earlier + more, updates, n + 1)
  {
    if more == [] {
      g := f;
      assert earlier + more == earlier;
    } else {
      g := f + [n];
      PicksExtend(f, |earlier|, n);
      var a := earlier + more;
      assert |a| == |earlier| + 1;
      forall k | 0 <= k < |a| ensures SubUpdate(a[k], updates[g[k]]) {
        if k < |earlier| {
          assert a[k] == earlier[k] && g[k] == f[k];
        } else {
          assert a[k] == more[0] && g[k] == n;
        }
      }
    }
  }

  lemma PicksExtend(f: seq<int>, m: nat, n: nat)
    requires Picks(f, m, n)
    ensures Picks(f + [n], m + 1, n + 1)
  {}

  lemma NextUpdateIsSub(f: seq<int>, before: (Database, seq<Update>), uri: string, updates: seq<Update>, n: nat, now: nat -> int)
    returns (g: seq<int>)
    requires n < |updates| && PicksUpdates(f, before.1, updates, n)
    ensures PicksUpdates(g, ThenUpdate(before, uri, updates[n], now).1, updates, n + 1)
  {
    StoredUpdateIsSub(before.0, uri, updates[n], now);
    g := PickOneMore(f, before.1, TakeUpdate(before.0, uri, updates[n], now).1, updates, n);
  }

  lemma {:induction false} StoredUpdatesAreSub(db: Database, uri: string, updates: seq<Update>, clock: Clock, n: nat)
    returns (f: seq<int>)
    requires n <= |updates|
    ensures PicksUpdates(f, TakeUpdates(db, uri, updates, clock, n).1, updates, n)
  {
    f := [];
    if n > 0 {
      f := StoredUpdatesAreSub(db, uri, updates, clock, n - 1);
      f := NextUpdateIsSub(f, TakeUpdates(db, uri, updates, clock, n - 1), uri, updates, n - 1, clock(n - 1));
    }
  }

  /** A broadcast vessel delta is an order-preserving part of the delta applied,
      without empty updates. */
  lemma BroadcastIsSubDelta(db: Database, delta: Delta, clock: Clock)
    requires ResolveVessel(delta.context, db.selfUri).Some?
    ensures var sent := Deliver(db, delta, clock).1;
            sent.Some? ==> sent.value.context == delta.context && sent.value.updates != []
                           && SubUpdates(sent.value.updates, delta.updates)
  {
    var f := StoredUpdatesAreSub(db, ResolveVessel(delta.context, db.selfUri).value, delta.updates, clock, |delta.updates|);
  }

  // ----- expiry and the per-source index -----

  /** The self vessel's active value at a path is also its source's index entry. */
  ghost predicate ActiveIndexed(db: Database, path: string) {
    match Lookup(db, db.selfUri, path)
    case Some(v) => Indexed(db, path, v.source) == Some(v)
    case None => true
  }

  /** The write evicts the very source that is active on the self vessel afterwards: its
      own, if it is a write to that vessel, and the present one if it is not. */
  predicate Separates(db: Database, e: Event, path: string) {
    e.Write? && e.path == path
    && match Evicted(db, e.uri, path, e.now)
       case None => false
       case Some(gone) =>
         if e.uri == db.selfUri then gone == e.value.source
         else Lookup(db, db.selfUri, path).Some? && gone == Lookup(db, db.selfUri, path).value.source
  }

  /** The write becomes active on the self vessel and stays indexed. */
  predicate Rejoins(db: Database, e: Event, path: string) {
    e.Write? && e.path == path && e.uri == db.selfUri && Accepts(db, e.uri, path, e.value.source, e.now)
    && !Separates(db, e, path)
  }

  /** Exactly which writes separate the active value from the index, told before the write. */
  lemma ActiveIndexedUnlessEvicted(db: Database, w: Event)
    requires w.Write? && ActiveIndexed(db, w.path)
    ensures ActiveIndexed(Step(db, w), w.path) <==> !Separates(db, w, w.path)
  {
    StepIndexedStays(db, w, w.path);
  }

  lemma StepIndexedStays(db: Database, e: Event, path: string)
    ensures ActiveIndexed(Step(db, e), path)
       <==> !Separates(db, e, path) && (Rejoins(db, e, path) || ActiveIndexed(db, path))
  {
    StepLookup(db, e, db.selfUri, path);
    var active := Lookup(Step(db, e), db.selfUri, path);
    if active.Some? {
      StepIndexed(db, e, path, active.value.source);
    }
  }

  ghost predicate SeparatesAt(db: Database, events: seq<Event>, path: string, i: nat)
    requires i < |events|
  {
    Separates(Run(db, events[..i]), events[i], path)
  }

  ghost predicate RejoinsAt(db: Database, events: seq<Event>, path: string, i: nat)
    requires i < |events|
  {
    Rejoins(Run(db, events[..i]), events[i], path)
  }

  /** At this point of the history the active value was separated from the index, and
      no later write joined them again. */
  ghost predicate ApartAt(db: Database, events: seq<Event>, path: string, i: nat)
    requires i < |events|
  {
    SeparatesAt(db, events, path, i) && forall j :: i < j < |events| ==> !RejoinsAt(db, events, path, j)
  }

  ghost predicate Apart(db: Database, events: seq<Event>, path: string) {
    exists i :: 0 <= i < |events| && ApartAt(db, events, path, i)
  }

  lemma PrefixSame(db: Database, events: seq<Event>, path: string, n: nat, i: nat)
    requires i < n <= |events|
    ensures SeparatesAt(db, events[..n], path, i) == SeparatesAt(db, events, path, i)
    ensures RejoinsAt(db, events[..n], path, i) == RejoinsAt(db, events, path, i)
  {
    assert events[..n][..i] == events[..i];
  }

  lemma ApartBefore(db: Database, events: seq<Event>, path: string, n: nat, i: nat)
    requires i < n && |events| == n + 1
    ensures ApartAt(db, events, path, i) <==> ApartAt(db, events[..n], path, i) && !RejoinsAt(db, events, path, n)
  {
    forall j | 0 <= j < n
      ensures SeparatesAt(db, events[..n], path, j) == SeparatesAt(db, events, path, j)
      ensures RejoinsAt(db, events[..n], path, j) == RejoinsAt(db, events, path, j) {
      PrefixSame(db, events, path, n, j);
    }
  }

  lemma ApartOneMore(db: Database, events: seq<Event>, path: string, n: nat)
    requires |events| == n + 1
    ensures Apart(db, events, path)
       <==> SeparatesAt(db, events, path, n) || (Apart(db, events[..n], path) && !RejoinsAt(db, events, path, n))
  {
    assert ApartAt(db, events, path, n) <==> SeparatesAt(db, events, path, n);
    forall i | 0 <= i < n
      ensures ApartAt(db, events, path, i) <==> ApartAt(db, events[..n], path, i) && !RejoinsAt(db, events, path, n) {
      ApartBefore(db, events, path, n, i);
    }
    if Apart(db, events[..n], path) && !RejoinsAt(db, events, path, n) {
      var i :| 0 <= i < n && ApartAt(db, events[..n], path, i);
      assert ApartAt(db, events, path, i);
    }
  }

  /** Main result: after any run from a fresh store, the self vessel's active value is in the
      index if and only if since the last write that joined the two no write evicted the
      source that was active after it. */
  lemma {:induction false} ActiveIndexedIffNotApart(selfUri: string, events: seq<Event>, path: string)
    ensures ActiveIndexed(Run(New(selfUri), events), path) <==> !Apart(New(selfUri), events, path)
  {
    if events != [] {
      var before := events[..|events| - 1];
      ActiveIndexedIffNotApart(selfUri, before, path);
      ApartOneMore(New(selfUri), events, path, |events| - 1);
      StepIndexedStays(Run(New(selfUri), before), events[|events| - 1], path);
    }
  }

  /** The same for every run of deltas and configuration changes. */
  lemma DeltaRunsIndexedIffNotApart(selfUri: string, cmds: seq<Command>, path: string)
    ensures ActiveIndexed(Execute(New(selfUri), cmds).0, path)
       <==> !Apart(New(selfUri), AllEvents(selfUri, cmds), path)
  {
    ExecuteIsRun(New(selfUri), cmds);
    ActiveIndexedIffNotApart(selfUri, AllEvents(selfUri, cmds), path);
  }

  /** A stale source that returns is active but no longer indexed. */
  lemma ReturningStaleSourceLeavesIndex(db: Database, path: string, v: StoredValue, now: int)
    requires Evicted(db, db.selfUri, path, now) == Some(v.source)
    ensures var next := Step(db, Write(db.selfUri, path, v, now));
            Lookup(next, db.selfUri, path) == Some(v) && Indexed(next, path, v.source) == None
  {}

  /** An eviction on another vessel removes the self vessel's entry of that source:
      the eviction does not ask which vessel the index belongs to. */
  lemma ForeignEvictionClearsSelfIndex(db: Database, uri: string, path: string, v: StoredValue, now: int)
    requires uri != db.selfUri && Evicted(db, uri, path, now).Some?
    ensures var next := Step(db, Write(uri, path, v, now));
            var source := Evicted(db, uri, path, now).value;
            Indexed(next, path, source) == None
            && Lookup(next, db.selfUri, path) == Lookup(db, db.selfUri, path)
  {}

  // ----- the dashboard counters -----

  function UpdatesLabelled(updates: seq<Update>, name: string, n: nat): nat
    requires n <= |updates|
  {
    if n == 0 then 0
    else UpdatesLabelled(updates, name, n - 1) + if LabelOf(updates[n - 1]) == name then 1 else 0
  }

  /** Each label's counter grows by the number of updates carrying it, stored or not. */
  lemma {:induction false} CountersCountUpdates(counts: map<string, nat>, updates: seq<Update>, name: string, n: nat)
    requires n <= |updates|
    ensures var after := Counted(counts, updates, n);
            (if name in after then after[name] else 0)
            == (if name in counts then counts[name] else 0) + UpdatesLabelled(updates, name, n)
  {
    if n > 0 {
      CountersCountUpdates(counts, updates, name, n - 1);
    }
  }
}
