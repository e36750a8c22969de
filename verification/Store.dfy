/** The multi-source value store: priority arbitration, lazy expiry, a
    per-source index and a filtered broadcast (crates/signalk-store/src/store.rs). */
module Store {
  import opened Basics
  import opened JsonModel
  import opened Deltas
  import Paths

  /** A stored value; the optional metadata of the full model is added on reading. */
  datatype StoredValue = StoredValue(value: Json, source: string, timestamp: int)

  type PathMap = map<string, StoredValue>

  /** Priorities are `u16` and time-to-live seconds are `u64`. */
  newtype u16 = x: int | 0 <= x < 0x1_0000
  newtype u64 = x: int | 0 <= x < 0x1_0000_0000_0000_0000

  const DEFAULT_SOURCE_PRIORITY: u16 := 100
  const NANOS := 1_000_000_000

  /** The part of the store that decides what is stored and broadcast. */
  datatype Database = Database(selfUri: string,
                               vessels: map<string, PathMap>,
                               index: map<string, PathMap>,
                               priorities: map<string, u16>,
                               ttls: map<string, u64>)

  function New(selfUri: string): Database {
    Database(selfUri, map[selfUri := map[]], map[], map[], map[])
  }

  /** The active value at a path of a vessel. */
  function Lookup(db: Database, uri: string, path: string): Option<StoredValue> {
    if uri in db.vessels then Get(db.vessels[uri], path) else None
  }

  /** The per-source entry of the self vessel. */
  function Indexed(db: Database, path: string, source: string): Option<StoredValue> {
    if path in db.index then Get(db.index[path], source) else None
  }

  function Priority(priorities: map<string, u16>, source: string): u16 {
    if source in priorities then priorities[source] else DEFAULT_SOURCE_PRIORITY
  }

  /** `num_seconds`: whole seconds, truncated towards zero. */
  function WholeSeconds(nanos: int): int {
    if nanos >= 0 then nanos / NANOS else -((-nanos) / NANOS)
  }

  /** `as i64`: large values wrap to negative ones. */
  function AsI64(x: u64): int {
    if x < 0x8000_0000_0000_0000 then x as int else x as int - 0x1_0000_0000_0000_0000
  }

  /** The active value has outlived its source's time to live. */
  predicate Stale(db: Database, current: StoredValue, now: int) {
    current.source in db.ttls && WholeSeconds(now - current.timestamp) > AsI64(db.ttls[current.source])
  }

  // ----- events: everything that changes the database -----

  datatype Event =
    | Open(uri: string)
    | Write(uri: string, path: string, value: StoredValue, now: int)
    | SetPriorities(priorities: map<string, u16>)
    | SetTtls(ttls: map<string, u64>)

  /** The source evicted by a write, if the active value is stale. */
  function Evicted(db: Database, uri: string, path: string, now: int): Option<string> {
    match Lookup(db, uri, path)
    case Some(current) => if Stale(db, current, now) then Some(current.source) else None
    case None => None
  }

  predicate Accepts(db: Database, uri: string, path: string, source: string, now: int) {
    || Evicted(db, uri, path, now).Some?
    || match Lookup(db, uri, path)
       case Some(current) => Priority(db.priorities, source) <= Priority(db.priorities, current.source)
       case None => true
  }

  function AddEntry(index: map<string, PathMap>, path: string, v: StoredValue): map<string, PathMap> {
    index[path := (if path in index then index[path] else map[])[v.source := v]]
  }

  function DropEntry(index: map<string, PathMap>, path: string, source: string): map<string, PathMap> {
    if path in index then index[path := index[path] - {source}] else index
  }

  function Step(db: Database, e: Event): Database {
    match e
    case Open(uri) => if uri in db.vessels then db else db.(vessels := db.vessels[uri := map[]])
    case SetPriorities(p) => db.(priorities := p)
    case SetTtls(t) => db.(ttls := t)
    case Write(uri, path, v, now) =>
      var index := if uri == db.selfUri then AddEntry(db.index, path, v) else db.index;
      if Accepts(db, uri, path, v.source, now) then
        var evicted := Evicted(db, uri, path, now);
        var values := if uri in db.vessels then db.vessels[uri] else map[];
        db.(vessels := db.vessels[uri := values[path := v]],
            index := if evicted.Some? then DropEntry(index, path, evicted.value) else index)
      else db.(index := index)
  }

  function Run(db: Database, events: seq<Event>): Database {
    if events == [] then db
    else Step(Run(db, events[..|events| - 1]), events[|events| - 1])
  }

  // ----- deltas -----

  const VESSELS := "vessels."

  /** The vessel a context names, or `None` for a non-vessel context. */
  function ResolveVessel(context: Option<string>, selfUri: string): Option<string> {
    var c := if context.Some? && context.value != "vessels.self" then context.value else VESSELS + selfUri;
    if VESSELS <= c then Some(c[|VESSELS|..]) else None
  }

  /** Clock readings while one delta is applied: by update, then by value. */
  type Clock = nat -> nat -> int

  function ValueOf(u: Update, j: nat): StoredValue
    requires j < |u.values|
  {
    StoredValue(u.values[j].value, SourceRef(u.source), u.timestamp)
  }

  function WriteOf(uri: string, u: Update, j: nat, now: int): Event
    requires j < |u.values|
  {
    Write(uri, u.values[j].path, ValueOf(u, j), now)
  }

  /** One more value: the database, and the values stored so far. */
  function TakeValue(before: (Database, seq<PathValue>), uri: string, u: Update, n: nat, now: int): (Database, seq<PathValue>)
    requires n < |u.values|
  {
    (Step(before.0, WriteOf(uri, u, n, now)),
     before.1 + if Accepts(before.0, uri, u.values[n].path, SourceRef(u.source), now) then [u.values[n]] else [])
  }

  /** The first `n` values of an update: the database after them, and those stored. */
  function TakeValues(db: Database, uri: string, u: Update, now: nat -> int, n: nat): (Database, seq<PathValue>)
    requires n <= |u.values|
  {
    if n == 0 then (db, [])
    else TakeValue(TakeValues(db, uri, u, now, n - 1), uri, u, n - 1, now(n - 1))
  }

  /** One update: the database after it, and its broadcast form, left out when
      nothing was stored. */
  function TakeUpdate(db: Database, uri: string, u: Update, now: nat -> int): (Database, seq<Update>) {
    var after := TakeValues(db, uri, u, now, |u.values|);
    (after.0, if after.1 == [] then [] else [Update(u.source, u.timestamp, after.1)])
  }

  function ThenUpdate(before: (Database, seq<Update>), uri: string, u: Update, now: nat -> int): (Database, seq<Update>) {
    var after := TakeUpdate(before.0, uri, u, now);
    (after.0, before.1 + after.1)
  }

  /** The first `n` updates of a delta for vessel `uri`. */
  function TakeUpdates(db: Database, uri: string, updates: seq<Update>, clock: Clock, n: nat): (Database, seq<Update>)
    requires n <= |updates|
  {
    if n == 0 then (Step(db, Open(uri)), [])
    else ThenUpdate(TakeUpdates(db, uri, updates, clock, n - 1), uri, updates[n - 1], clock(n - 1))
  }

  /** The effect of a delta on the database, and what is sent to the subscribers: a
      non-vessel delta as it came, a vessel delta reduced to its stored values, or
      nothing. */
  function Deliver(db: Database, delta: Delta, clock: Clock): (Database, Option<Delta>) {
    match ResolveVessel(delta.context, db.selfUri)
    case None => (db, Some(delta))
    case Some(uri) =>
      var after := TakeUpdates(db, uri, delta.updates, clock, |delta.updates|);
      (after.0, if after.1 == [] then None else Some(Delta(delta.context, after.1)))
  }

  // ----- bookkeeping beside the values -----

  function RegisterOne(sources: map<string, Source>, u: Update): map<string, Source> {
    if SourceRef(u.source) in sources then sources else sources[SourceRef(u.source) := u.source]
  }

  function Registered(sources: map<string, Source>, updates: seq<Update>, n: nat): map<string, Source>
    requires n <= |updates|
  {
    if n == 0 then sources else RegisterOne(Registered(sources, updates, n - 1), updates[n - 1])
  }

  /** The dashboard label of an update: its source reference up to the first dot. */
  function LabelOf(u: Update): string {
    Paths.Split(SourceRef(u.source))[0]
  }

  function CountOne(counts: map<string, nat>, name: string): map<string, nat> {
    counts[name := (if name in counts then counts[name] else 0) + 1]
  }

  function Counted(counts: map<string, nat>, updates: seq<Update>, n: nat): map<string, nat>
    requires n <= |updates|
  {
    if n == 0 then counts else CountOne(Counted(counts, updates, n - 1), LabelOf(updates[n - 1]))
  }

  // ----- the store object -----

  class SignalKStore {
    const selfUri: string
    var vessels: map<string, PathMap>
    var sources: map<string, Source>
    var multiSource: map<string, PathMap>
    var sourcePriorities: map<string, u16>
    var sourceTtls: map<string, u64>
    /** The broadcast channel, every delta ever sent. */
    var log: seq<Delta>
    var deltaCount: nat
    var sourceDeltaCounts: map<string, nat>

    ghost function Db(): Database
      reads this
    {
      Database(selfUri, vessels, multiSource, sourcePriorities, sourceTtls)
    }

    constructor (selfUri: string)
      ensures this.selfUri == selfUri && Db() == New(selfUri)
      ensures log == [] && deltaCount == 0 && sources == map[] && sourceDeltaCounts == map[]
    {
      this.selfUri := selfUri;
      vessels := map[selfUri := map[]];
      sources, multiSource, sourcePriorities, sourceTtls := map[], map[], map[], map[];
      log, deltaCount, sourceDeltaCounts := [], 0, map[];
    }

    method SetSourcePriorities(priorities: map<string, u16>)
      modifies this`sourcePriorities
      ensures Db() == Step(old(Db()), SetPriorities(priorities))
    {
      sourcePriorities := priorities;
    }

    method SetSourceTtls(ttls: map<string, u64>)
      modifies this`sourceTtls
      ensures Db() == Step(old(Db()), SetTtls(ttls))
    {
      sourceTtls := ttls;
    }

    method ApplyDelta(delta: Delta, clock: Clock)
      modifies this
      ensures var (db, sent) := Deliver(old(Db()), delta, clock);
              Db() == db && log == old(log) + if sent.Some? then [sent.value] else []
      ensures var vessel := ResolveVessel(delta.context, selfUri).Some?;
              && deltaCount == old(deltaCount) + (if vessel && |log| > old(|log|) then 1 else 0)
              && sources == (if vessel then Registered(old(sources), delta.updates, |delta.updates|) else old(sources))
              && sourceDeltaCounts == (if vessel then Counted(old(sourceDeltaCounts), delta.updates, |delta.updates|)
                                       else old(sourceDeltaCounts))
    {
      var context := if delta.context.Some? then delta.context.value else VESSELS + selfUri;
      if context == "vessels.self" {
        context := VESSELS + selfUri;
      }
      if !(VESSELS <= context) {
        log := log + [delta];
        return;
      }
      var uri := context[|VESSELS|..];
      assert ResolveVessel(delta.context, selfUri) == Some(uri);
      var appliedUpdates := ApplyUpdates(uri, delta.updates, clock);
      if appliedUpdates != [] {
        log := log + [Delta(delta.context, appliedUpdates)];
        deltaCount := deltaCount + 1;
      }
    }

    /** The loop over the updates, after creating the vessel's entry. */
    method ApplyUpdates(uri: string, updates: seq<Update>, clock: Clock) returns (applied: seq<Update>)
      modifies this`vessels, this`multiSource, this`sources, this`sourceDeltaCounts
      ensures (Db(), applied) == TakeUpdates(old(Db()), uri, updates, clock, |updates|)
      ensures sources == Registered(old(sources), updates, |updates|)
      ensures sourceDeltaCounts == Counted(old(sourceDeltaCounts), updates, |updates|)
    {
      ghost var db := Db();
      if uri !in vessels {
        vessels := vessels[uri := map[]];
      }
      applied := [];
      for i := 0 to |updates|
        invariant (Db(), applied) == TakeUpdates(db, uri, updates, clock, i)
        invariant sources == Registered(old(sources), updates, i)
        invariant sourceDeltaCounts == Counted(old(sourceDeltaCounts), updates, i)
      {
        var stored := ApplyUpdate(uri, updates[i], clock(i));
        applied := applied + stored;
      }
    }

    method RegisterSource(u: Update)
      modifies this`sources, this`sourceDeltaCounts
      ensures sources == RegisterOne(old(sources), u)
      ensures sourceDeltaCounts == CountOne(old(sourceDeltaCounts), LabelOf(u))
    {
      var ref := SourceRef(u.source);
      if ref !in sources {
        sources := sources[ref := u.source];
      }
      var l := LabelOf(u);
      var count := if l in sourceDeltaCounts then sourceDeltaCounts[l] else 0;
      sourceDeltaCounts := sourceDeltaCounts[l := count + 1];
    }

    method ApplyUpdate(uri: string, u: Update, now: nat -> int) returns (stored: seq<Update>)
      modifies this`vessels, this`multiSource, this`sources, this`sourceDeltaCounts
      ensures (Db(), stored) == TakeUpdate(old(Db()), uri, u, now)
      ensures sources == RegisterOne(old(sources), u)
      ensures sourceDeltaCounts == CountOne(old(sourceDeltaCounts), LabelOf(u))
    {
      RegisterSource(u);
      var applied := ApplyValues(uri, u, now);
      stored := if applied == [] then [] else [Update(u.source, u.timestamp, applied)];
    }

    method ApplyValues(uri: string, u: Update, now: nat -> int) returns (applied: seq<PathValue>)
      modifies this`vessels, this`multiSource
      ensures (Db(), applied) == TakeValues(old(Db()), uri, u, now, |u.values|)
    {
      ghost var db := Db();
      applied := [];
      for j := 0 to |u.values|
        invariant (Db(), applied) == TakeValues(db, uri, u, now, j)
      {
        var accepted := ApplyValue(uri, u.values[j].path, ValueOf(u, j), now(j));
        assert applied + [] == applied;
        if accepted {
          applied := applied + [u.values[j]];
        }
      }
    }

    method ApplyValue(uri: string, path: string, v: StoredValue, now: int) returns (accepted: bool)
      modifies this`vessels, this`multiSource
      ensures Db() == Step(old(Db()), Write(uri, path, v, now))
      ensures accepted == Accepts(old(Db()), uri, path, v.source, now)
    {
      if uri == selfUri {
        var entries := if path in multiSource then multiSource[path] else map[];
        multiSource := multiSource[path := entries[v.source := v]];
      }
      var current: Option<StoredValue> := if uri in vessels then Get(vessels[uri], path) else None;
      var evictStale: Option<string> := None;
      if current.Some? && current.value.source in sourceTtls {
        var age := WholeSeconds(now - current.value.timestamp);
        if age > AsI64(sourceTtls[current.value.source]) {
          evictStale := Some(current.value.source);
        }
      }
      accepted := evictStale.Some? || current.None?
                  || Priority(sourcePriorities, v.source) <= Priority(sourcePriorities, current.value.source);
      if accepted {
        if evictStale.Some? && path in multiSource {
          multiSource := multiSource[path := multiSource[path] - {evictStale.value}];
        }
        var values := if uri in vessels then vessels[uri] else map[];
        vessels := vessels[uri := values[path := v]];
      }
    }

    method GetSelfPath(path: string) returns (v: Option<StoredValue>)
      ensures v == Lookup(Db(), selfUri, path)
    {
      v := if selfUri in vessels then Get(vessels[selfUri], path) else None;
    }
  }
}
