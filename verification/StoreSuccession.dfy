/** Who holds a path of the store over time, from the writes, the settings in force and
    the clock alone (crates/signalk-store/src/store.rs). */
module StoreSuccession {
  import opened Basics
  import opened Deltas
  import opened Store
  import opened StoreRuns

  // ----- the vessel written to -----

  /** A delta without context, or with that of `self`, is for the own vessel; else the context
      names the vessel after `vessels.`, and any other context none. */
  lemma ContextNamesVessel(context: Option<string>, selfUri: string, uri: string)
    ensures ResolveVessel(context, selfUri) == Some(uri)
       <==> if context == None || context == Some("vessels.self") then uri == selfUri else context == Some("vessels." + uri)
  {
    var own := "vessels." + selfUri;
    assert own[|VESSELS|..] == selfUri;
    if context.Some? && VESSELS <= context.value {
      assert context.value == "vessels." + context.value[|VESSELS|..];
    }
  }

  // ----- one write -----

  /** The rank of a source: its configured priority, or 100. */
  function Rank(priorities: map<string, u16>, source: string): int {
    if source in priorities then priorities[source] as int else 100
  }

  /** A value of a source with `ttl` seconds to live gives way once `ttl + 1` whole seconds
      have passed. From 2^63 on the cast to a signed number makes the limit negative:
      then it gives way at once, unless its time stamp lies that far ahead. */
  predicate Overdue(ttl: int, timestamp: int, now: int) {
    if ttl < 0x8000_0000_0000_0000 then now - timestamp >= (ttl + 1) * 1_000_000_000
    else now - timestamp > (ttl - 0x1_0000_0000_0000_0000) * 1_000_000_000
  }

  /** The holder of a path must give way to a write of `source` at `now`. */
  predicate Yields(holder: StoredValue, source: string, priorities: map<string, u16>, ttls: map<string, u64>, now: int) {
    || Rank(priorities, source) <= Rank(priorities, holder.source)
    || (holder.source in ttls && Overdue(ttls[holder.source] as int, holder.timestamp, now))
  }

  lemma AgeInSeconds(age: int, seconds: int)
    ensures seconds >= 0 ==> (WholeSeconds(age) > seconds <==> age >= (seconds + 1) * NANOS)
    ensures seconds < 0 ==> (WholeSeconds(age) > seconds <==> age > seconds * NANOS)
  {}

  /** Main result: a write at a path replaces the active value exactly if it is of equal
      or better priority or finds that value overdue; a value whose source has no time
      to live never is. The writer is then active, whatever its own time stamp. */
  lemma WriteReplacesIff(db: Database, uri: string, path: string, v: StoredValue, now: int, holder: StoredValue)
    requires Lookup(db, uri, path) == Some(holder)
    ensures Lookup(Step(db, Write(uri, path, v, now)), uri, path)
         == Some(if Yields(holder, v.source, db.priorities, db.ttls, now) then v else holder)
  {
    if holder.source in db.ttls {
      AgeInSeconds(now - holder.timestamp, AsI64(db.ttls[holder.source]));
    }
  }

  /** The case of one expiring source and a worse writer. */
  lemma WorseWriterWaits(db: Database, uri: string, path: string, v: StoredValue, now: int, holder: StoredValue)
    requires Lookup(db, uri, path) == Some(holder) && v != holder
    requires Rank(db.priorities, v.source) > Rank(db.priorities, holder.source)
    ensures var active := Lookup(Step(db, Write(uri, path, v, now)), uri, path);
            && (holder.source !in db.ttls ==> active == Some(holder))
            && (holder.source in db.ttls && db.ttls[holder.source] < 0x8000_0000_0000_0000 ==>
                  (active == Some(v) <==> now - holder.timestamp >= (db.ttls[holder.source] as int + 1) * 1_000_000_000))
  {
    WriteReplacesIff(db, uri, path, v, now, holder);
  }

  /** The write enters the index of the own vessel under its source, and drops the overdue
      holder from it, whichever vessel is written to and whoever writes. */
  lemma WriteIndexes(db: Database, uri: string, path: string, v: StoredValue, now: int, holder: StoredValue, source: string)
    requires Lookup(db, uri, path) == Some(holder)
    ensures var overdue := holder.source in db.ttls && Overdue(db.ttls[holder.source] as int, holder.timestamp, now);
            Indexed(Step(db, Write(uri, path, v, now)), path, source)
            == if overdue && source == holder.source then None
               else if uri == db.selfUri && source == v.source then Some(v)
               else Indexed(db, path, source)
  {
    StepIndexed(db, Write(uri, path, v, now), path, source);
    if holder.source in db.ttls {
      AgeInSeconds(now - holder.timestamp, AsI64(db.ttls[holder.source]));
    }
  }

  // ----- a whole run -----

  /** A write at one path, with the settings it meets. */
  datatype TimedWrite = TimedWrite(value: StoredValue, now: int, priorities: map<string, u16>, ttls: map<string, u64>)

  /** The last priorities and times to live set. */
  function SettingsAfter(events: seq<Event>): (map<string, u16>, map<string, u64>) {
    if events == [] then (map[], map[])
    else
      var (priorities, ttls) := SettingsAfter(events[..|events| - 1]);
      match events[|events| - 1]
      case SetPriorities(p) => (p, ttls)
      case SetTtls(t) => (priorities, t)
      case _ => (priorities, ttls)
  }

  /** The writes at a path of a vessel, in order, stored or not. */
  function WritesAt(events: seq<Event>, uri: string, path: string): seq<TimedWrite> {
    if events == [] then []
    else
      var before, e := events[..|events| - 1], events[|events| - 1];
      var (priorities, ttls) := SettingsAfter(before);
      WritesAt(before, uri, path)
      + if e.Write? && e.uri == uri && e.path == path then [TimedWrite(e.value, e.now, priorities, ttls)] else []
  }

  predicate Ousts(w: TimedWrite, holder: StoredValue) {
    Yields(holder, w.value.source, w.priorities, w.ttls, w.now)
  }

  /** The `j`-th write is the first after the `i`-th that ousts its value. */
  ghost predicate Succeeds(ws: seq<TimedWrite>, i: nat, j: nat) {
    && i < j < |ws| && Ousts(ws[j], ws[i].value)
    && forall k :: i < k < j ==> !Ousts(ws[k], ws[i].value)
  }

  /** No later write ousts the value of the `i`-th. */
  ghost predicate Remains(ws: seq<TimedWrite>, i: nat) {
    i < |ws| && forall k :: i < k < |ws| ==> !Ousts(ws[k], ws[i].value)
  }

  /** The successive holders, from the first write on. */
  ghost predicate Succession(ws: seq<TimedWrite>, reigns: seq<nat>) {
    && reigns != [] && reigns[0] == 0
    && (forall m :: 0 < m < |reigns| ==> Succeeds(ws, reigns[m - 1], reigns[m]))
    && Remains(ws, reigns[|reigns| - 1])
  }

  lemma OneSuccessor(ws: seq<TimedWrite>, i: nat, j: nat, k: nat)
    requires Succeeds(ws, i, j)
    ensures Succeeds(ws, i, k) ==> j == k
    ensures !Remains(ws, i)
  {}

  lemma {:induction false} SameReigns(ws: seq<TimedWrite>, a: seq<nat>, b: seq<nat>, n: nat)
    requires Succession(ws, a) && Succession(ws, b) && n < |a| && n < |b|
    ensures a[n] == b[n]
    ensures n == |a| - 1 ==> |a| == |b|
  {
    if n > 0 {
      SameReigns(ws, a, b, n - 1);
      OneSuccessor(ws, a[n - 1], a[n], b[n]);
    }
    if n < |b| - 1 {
      OneSuccessor(ws, b[n], b[n + 1], b[n + 1]);
    }
  }

  /** There is only one. */
  lemma SuccessionUnique(ws: seq<TimedWrite>, a: seq<nat>, b: seq<nat>)
    requires Succession(ws, a) && Succession(ws, b)
    ensures a == b
  {
    if |a| <= |b| {
      SameReigns(ws, a, b, |a| - 1);
    } else {
      SameReigns(ws, b, a, |b| - 1);
    }
    forall n | 0 <= n < |a| ensures a[n] == b[n] {
      SameReigns(ws, a, b, n);
    }
  }

  lemma SucceedsStill(ws: seq<TimedWrite>, w: TimedWrite, i: nat, j: nat)
    requires Succeeds(ws, i, j)
    ensures Succeeds(ws + [w], i, j)
  {}

  lemma OneWriteMore(ws: seq<TimedWrite>, w: TimedWrite, i: nat)
    requires Remains(ws, i)
    ensures if Ousts(w, ws[i].value) then Succeeds(ws + [w], i, |ws|) else Remains(ws + [w], i)
  {}

  /** The newest write remains until a later one. */
  lemma NewestRemains(ws: seq<TimedWrite>, w: TimedWrite)
    ensures Remains(ws + [w], |ws|)
  {}

  lemma FirstReign(w: TimedWrite)
    ensures Succession([w], [0])
  {}

  function Prolonged(ws: seq<TimedWrite>, reigns: seq<nat>, w: TimedWrite): seq<nat>
    requires reigns != [] && reigns[|reigns| - 1] < |ws|
  {
    if Ousts(w, ws[reigns[|reigns| - 1]].value) then reigns + [|ws|] else reigns
  }

  lemma SuccessionGoesOn(ws: seq<TimedWrite>, reigns: seq<nat>, w: TimedWrite)
    requires Succession(ws, reigns)
    ensures Succession(ws + [w], Prolonged(ws, reigns, w))
  {
    var last, longer := reigns[|reigns| - 1], Prolonged(ws, reigns, w);
    OneWriteMore(ws, w, last);
    NewestRemains(ws, w);
    forall m | 0 < m < |longer| ensures Succeeds(ws + [w], longer[m - 1], longer[m]) {
      if m < |reigns| {
        SucceedsStill(ws, w, reigns[m - 1], reigns[m]);
      }
    }
  }

  /** The holder at a path is the last of the succession; without a write there is none. */
  ghost predicate HeldBySuccession(db: Database, ws: seq<TimedWrite>, uri: string, path: string) {
    if ws == [] then Lookup(db, uri, path) == None
    else exists reigns :: Succession(ws, reigns) && Lookup(db, uri, path) == Some(ws[reigns[|reigns| - 1]].value)
  }

  lemma {:induction false} SettingsInForce(selfUri: string, events: seq<Event>)
    ensures var db := Run(New(selfUri), events); (db.priorities, db.ttls) == SettingsAfter(events)
  {
    if events != [] {
      SettingsInForce(selfUri, events[..|events| - 1]);
    }
  }

  lemma WriteKeepsSuccession(db: Database, ws: seq<TimedWrite>, uri: string, path: string, w: TimedWrite)
    requires HeldBySuccession(db, ws, uri, path) && (db.priorities, db.ttls) == (w.priorities, w.ttls)
    ensures HeldBySuccession(Step(db, Write(uri, path, w.value, w.now)), ws + [w], uri, path)
  {
    var next, all := Step(db, Write(uri, path, w.value, w.now)), ws + [w];
    if ws == [] {
      FirstReign(w);
      assert all == [w];
      StepLookup(db, Write(uri, path, w.value, w.now), uri, path);
    } else {
      var reigns :| Succession(ws, reigns) && Lookup(db, uri, path) == Some(ws[reigns[|reigns| - 1]].value);
      SuccessionGoesOn(ws, reigns, w);
      WriteReplacesIff(db, uri, path, w.value, w.now, ws[reigns[|reigns| - 1]].value);
    }
  }

  /** Main result: after any run, with any changes of priorities and times to live in
      between, the active value is the last of the succession of its path. */
  lemma {:induction false} SuccessionDecides(selfUri: string, events: seq<Event>, uri: string, path: string)
    ensures HeldBySuccession(Run(New(selfUri), events), WritesAt(events, uri, path), uri, path)
  {
    if events != [] {
      var before, e := events[..|events| - 1], events[|events| - 1];
      var db, ws := Run(New(selfUri), before), WritesAt(before, uri, path);
      SuccessionDecides(selfUri, before, uri, path);
      if e.Write? && e.uri == uri && e.path == path {
        SettingsInForce(selfUri, before);
        WriteKeepsSuccession(db, ws, uri, path, TimedWrite(e.value, e.now, db.priorities, db.ttls));
      } else {
        assert ws + [] == ws;
        StepLookup(db, e, uri, path);
      }
    }
  }

  /** The same for the store itself, after any run of deltas and changes of settings. */
  lemma DeltaRunsFollowSuccession(selfUri: string, cmds: seq<Command>, uri: string, path: string)
    ensures HeldBySuccession(Execute(New(selfUri), cmds).0, WritesAt(AllEvents(selfUri, cmds), uri, path), uri, path)
  {
    ExecuteIsRun(New(selfUri), cmds);
    SuccessionDecides(selfUri, AllEvents(selfUri, cmds), uri, path);
  }
}
