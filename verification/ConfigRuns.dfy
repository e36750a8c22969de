/** Runs of the configuration store: cache and table stay in agreement, and reopening
    restores the configuration (crates/signalk-server/src/config_store.rs). */
module ConfigRuns {
  import opened Basics
  import opened JsonModel
  import opened ConfigStore

  // ----- encodings -----

  lemma NumberRoundTrip(n: nat, bound: nat, render: Json -> string)
    requires n < bound
    ensures DecodeNat(NumCell(n, render), bound) == Some(n)
  {
    assert (n as real).Floor == n;
  }

  lemma EntryRoundTrip(e: Entry, render: Json -> string)
    ensures DecodeEntry(Encode(EntryJson(e), render)) == Some(e)
  {}

  // ----- agreement -----

  /** The cache holds what the table says; its UUID may be generated if none is stored. */
  ghost predicate Agrees(c: Cache, t: Table) {
    && (StoredUuid(t) != "" ==> c.uuid == StoredUuid(t))
    && c.name == Stored(t, VesselName) && c.mmsi == Stored(t, VesselMmsi)
    && IsSection(c.priorities, t, SourcePriorities, DecodeU16)
    && IsSection(c.ttls, t, SourceTtls, DecodeU64)
    && IsSection(c.plugins, t, Plugins, DecodeEntry)
  }

  lemma LoadAgrees(t: Table, generated: string)
    ensures Agrees(LoadCache(t, generated), t)
  {
    SectionIsSection(t, SourcePriorities, DecodeU16);
    SectionIsSection(t, SourceTtls, DecodeU64);
    SectionIsSection(t, Plugins, DecodeEntry);
  }

  lemma AgreeingIsLoaded(c: Cache, t: Table, generated: string)
    requires Agrees(c, t)
    ensures c == LoadCache(t, generated) <==> (StoredUuid(t) == "" ==> c.uuid == generated)
  {
    SectionUnique(c.priorities, t, SourcePriorities, DecodeU16);
    SectionUnique(c.ttls, t, SourceTtls, DecodeU64);
    SectionUnique(c.plugins, t, Plugins, DecodeEntry);
  }

  // ----- what a setter touches -----

  predicate Touches(s: Setter, k: Key) {
    match s
    case SetVessel(_, _) => k == VesselName || k == VesselMmsi
    case SetUuid(_) => k == VesselUuid
    case SetPriorities(_) => k.Key? && k.ns == SourcePriorities
    case SetTtls(_) => k.Key? && k.ns == SourceTtls
    case SetPluginConfig(id, _) => k == Key(Plugins, id)
    case SetPluginEnabled(id, _) => k == Key(Plugins, id)
  }

  /** Every row outside a setter's own keys stays as it is, unknown rows included. */
  lemma OtherRowsStay(t: Table, c: Cache, s: Setter, render: Json -> string, k: Key)
    requires !Touches(s, k)
    ensures Get(TableAfter(t, c, s, render), k) == Get(t, k)
  {
    match s
    case SetPriorities(m) => NumberRowsAt(m, SourcePriorities, render, k);
    case SetTtls(m) => NumberRowsAt(m, SourceTtls, render, k);
    case _ =>
  }

  lemma SectionStays<T>(m: map<string, T>, t: Table, more: Table, ns: Namespace, decode: Cell -> Option<T>)
    requires IsSection(m, t, ns, decode)
    requires forall name :: Get(more, Key(ns, name)) == Get(t, Key(ns, name))
    ensures IsSection(m, more, ns, decode)
  {
    forall name ensures Get(m, name) == EntryAt(more, ns, decode, name) {
      assert Get(more, Key(ns, name)) == Get(t, Key(ns, name));
      assert Get(m, name) == EntryAt(t, ns, decode, name);
    }
  }

  lemma ReplacedSection<T>(m: map<string, nat>, values: map<string, T>, t: Table, ns: Namespace, decode: Cell -> Option<T>, render: Json -> string)
    requires m.Keys == values.Keys
    requires forall name <- m :: decode(NumCell(m[name], render)) == Some(values[name])
    ensures IsSection(values, Without(t, ns) + NumberRows(m, ns, render), ns, decode)
  {
    var more := Without(t, ns) + NumberRows(m, ns, render);
    forall name ensures Get(values, name) == EntryAt(more, ns, decode, name) {
      NumberRowsAt(m, ns, render, Key(ns, name));
      OverlayAt(Without(t, ns), NumberRows(m, ns, render), Key(ns, name));
    }
  }

  lemma PluginStored(m: map<string, Entry>, t: Table, id: string, e: Entry, render: Json -> string)
    requires IsSection(m, t, Plugins, DecodeEntry)
    ensures IsSection(m[id := e], Upsert(t, Key(Plugins, id), Encode(EntryJson(e), render)), Plugins, DecodeEntry)
  {
    var more := Upsert(t, Key(Plugins, id), Encode(EntryJson(e), render));
    EntryRoundTrip(e, render);
    forall name ensures Get(m[id := e], name) == EntryAt(more, Plugins, DecodeEntry, name) {
      assert Get(m, name) == EntryAt(t, Plugins, DecodeEntry, name);
    }
  }

  lemma PrioritiesKept(t: Table, c: Cache, s: Setter, render: Json -> string)
    requires Agrees(c, t)
    ensures IsSection(CacheAfter(c, s).priorities, TableAfter(t, c, s, render), SourcePriorities, DecodeU16)
  {
    if s.SetPriorities? {
      forall name <- s.priorities ensures DecodeU16(NumCell(s.priorities[name], render)) == Some(s.priorities[name]) {
        NumberRoundTrip(s.priorities[name], 0x1_0000, render);
      }
      ReplacedSection(s.priorities, s.priorities, t, SourcePriorities, DecodeU16, render);
    } else {
      forall name ensures Get(TableAfter(t, c, s, render), Key(SourcePriorities, name)) == Get(t, Key(SourcePriorities, name)) {
        OtherRowsStay(t, c, s, render, Key(SourcePriorities, name));
      }
      SectionStays(c.priorities, t, TableAfter(t, c, s, render), SourcePriorities, DecodeU16);
    }
  }

  lemma TtlsKept(t: Table, c: Cache, s: Setter, render: Json -> string)
    requires Agrees(c, t)
    ensures IsSection(CacheAfter(c, s).ttls, TableAfter(t, c, s, render), SourceTtls, DecodeU64)
  {
    if s.SetTtls? {
      forall name <- s.ttls ensures DecodeU64(NumCell(s.ttls[name], render)) == Some(s.ttls[name]) {
        NumberRoundTrip(s.ttls[name], 0x1_0000_0000_0000_0000, render);
      }
      ReplacedSection(s.ttls, s.ttls, t, SourceTtls, DecodeU64, render);
    } else {
      forall name ensures Get(TableAfter(t, c, s, render), Key(SourceTtls, name)) == Get(t, Key(SourceTtls, name)) {
        OtherRowsStay(t, c, s, render, Key(SourceTtls, name));
      }
      SectionStays(c.ttls, t, TableAfter(t, c, s, render), SourceTtls, DecodeU64);
    }
  }

  lemma PluginsKept(t: Table, c: Cache, s: Setter, render: Json -> string)
    requires Agrees(c, t)
    ensures IsSection(CacheAfter(c, s).plugins, TableAfter(t, c, s, render), Plugins, DecodeEntry)
  {
    match s
    case SetPluginConfig(id, config) => PluginStored(c.plugins, t, id, Configured(c, id, config), render);
    case SetPluginEnabled(id, enabled) => PluginStored(c.plugins, t, id, Switched(c, id, enabled), render);
    case _ =>
      forall name ensures Get(TableAfter(t, c, s, render), Key(Plugins, name)) == Get(t, Key(Plugins, name)) {
        OtherRowsStay(t, c, s, render, Key(Plugins, name));
      }
      SectionStays(c.plugins, t, TableAfter(t, c, s, render), Plugins, DecodeEntry);
  }

  /** The three rows of the namespace `server`. */
  lemma IdentityKept(t: Table, c: Cache, s: Setter, render: Json -> string)
    requires Agrees(c, t)
    ensures var (n, more) := (CacheAfter(c, s), TableAfter(t, c, s, render));
            && (StoredUuid(more) != "" ==> n.uuid == StoredUuid(more))
            && n.name == Stored(more, VesselName) && n.mmsi == Stored(more, VesselMmsi)
            && StoredUuid(more) == (if s.SetUuid? then s.uuid else StoredUuid(t))
  {
    forall k: Key | !Touches(s, k) ensures Get(TableAfter(t, c, s, render), k) == Get(t, k) {
      OtherRowsStay(t, c, s, render, k);
    }
    var more := TableAfter(t, c, s, render);
    if !s.SetUuid? {
      assert Get(more, VesselUuid) == Get(t, VesselUuid);
    }
    if !s.SetVessel? {
      assert Get(more, VesselName) == Get(t, VesselName) && Get(more, VesselMmsi) == Get(t, VesselMmsi);
    }
  }

  /** Every setter changes cache and table alike. */
  lemma SetterKeepsAgreement(t: Table, c: Cache, s: Setter, render: Json -> string)
    requires Agrees(c, t)
    ensures Agrees(CacheAfter(c, s), TableAfter(t, c, s, render))
    ensures StoredUuid(TableAfter(t, c, s, render)) == if s.SetUuid? then s.uuid else StoredUuid(t)
    ensures VesselUuid in t ==> VesselUuid in TableAfter(t, c, s, render)
  {
    PrioritiesKept(t, c, s, render);
    TtlsKept(t, c, s, render);
    PluginsKept(t, c, s, render);
    IdentityKept(t, c, s, render);
    if !s.SetUuid? {
      OtherRowsStay(t, c, s, render, VesselUuid);
    }
  }

  // ----- runs -----

  /** Table and cache after the first `n` setters. */
  function Run(t: Table, c: Cache, setters: seq<Setter>, n: nat, render: Json -> string): (Table, Cache)
    requires n <= |setters|
  {
    if n == 0 then (t, c)
    else
      var (t1, c1) := Run(t, c, setters, n - 1, render);
      (TableAfter(t1, c1, setters[n - 1], render), CacheAfter(c1, setters[n - 1]))
  }

  /** The UUID last set, or else the one stored at the start. */
  function LastUuid(stored: string, setters: seq<Setter>, n: nat): string
    requires n <= |setters|
  {
    if n == 0 then stored else if setters[n - 1].SetUuid? then setters[n - 1].uuid else LastUuid(stored, setters, n - 1)
  }

  lemma {:induction false} AlwaysAgrees(t: Table, c: Cache, setters: seq<Setter>, n: nat, render: Json -> string)
    requires Agrees(c, t) && n <= |setters|
    ensures var (t1, c1) := Run(t, c, setters, n, render);
            Agrees(c1, t1) && StoredUuid(t1) == LastUuid(StoredUuid(t), setters, n) && (VesselUuid in t ==> VesselUuid in t1)
  {
    if n > 0 {
      AlwaysAgrees(t, c, setters, n - 1, render);
      var (t1, c1) := Run(t, c, setters, n - 1, render);
      SetterKeepsAgreement(t1, c1, setters[n - 1], render);
    }
  }

  /** Opening the table again changes nothing in it and yields this very cache. */
  ghost predicate RestoredBy(t: Table, c: Cache, seed: SeedConfig, generated: string, render: Json -> string) {
    Opened(t, seed, render) == t && c == LoadCache(t, generated)
  }

  /** So does any opening, with any seed and any UUID generated on the way. */
  ghost predicate ReopensSame(t: Table, c: Cache, render: Json -> string) {
    forall seed, generated :: generated != "" ==> RestoredBy(t, c, seed, generated, render)
  }

  lemma StoredIsRestored(t: Table, c: Cache, seed: SeedConfig, generated: string, render: Json -> string)
    requires Agrees(c, t) && StoredUuid(t) != ""
    ensures RestoredBy(t, c, seed, generated, render)
  {
    assert VesselUuid in t;
    AgreeingIsLoaded(c, t, generated);
  }

  lemma UnstoredIsNotRestored(t: Table, c: Cache, seed: SeedConfig, generated: string, render: Json -> string)
    requires Agrees(c, t) && StoredUuid(t) == "" && c.uuid != generated
    ensures !RestoredBy(t, c, seed, generated, render)
  {
    AgreeingIsLoaded(c, t, generated);
  }

  /** The exact condition: a UUID is stored. */
  lemma ReopensSameIffUuidStored(t: Table, c: Cache, render: Json -> string)
    requires Agrees(c, t)
    ensures ReopensSame(t, c, render) <==> StoredUuid(t) != ""
  {
    if StoredUuid(t) != "" {
      forall seed, generated | generated != "" ensures RestoredBy(t, c, seed, generated, render) {
        StoredIsRestored(t, c, seed, generated, render);
      }
    } else {
      var seed, other := SeedConfig("", None, None, map[], map[], []), c.uuid + "x";
      assert |other| == |c.uuid| + 1;
      UnstoredIsNotRestored(t, c, seed, other, render);
    }
  }

  /** Main result: open any database, run any setters. Reopening it with any seed
      restores exactly the configuration in the cache if and only if the UUID last set,
      or stored at the start, is not empty. */
  lemma ReopeningRestoresIffUuidSet(table: Table, seed: SeedConfig, generated: string, setters: seq<Setter>, render: Json -> string)
    ensures var start := Opened(table, seed, render);
            var (t, c) := Run(start, LoadCache(start, generated), setters, |setters|, render);
            ReopensSame(t, c, render) <==> LastUuid(StoredUuid(start), setters, |setters|) != ""
  {
    var start := Opened(table, seed, render);
    LoadAgrees(start, generated);
    AlwaysAgrees(start, LoadCache(start, generated), setters, |setters|, render);
    var (t, c) := Run(start, LoadCache(start, generated), setters, |setters|, render);
    ReopensSameIffUuidStored(t, c, render);
  }

  lemma {:induction false} PluginsLeaveUuid(table: Table, plugins: seq<PluginSeed>, n: nat, render: Json -> string)
    requires n <= |plugins|
    ensures Get(PutPlugins(table, plugins, n, render), VesselUuid) == Get(table, VesselUuid)
  {
    if n > 0 {
      PluginsLeaveUuid(table, plugins, n - 1, render);
    }
  }

  lemma SeedStoresUuid(seed: SeedConfig, render: Json -> string)
    ensures StoredUuid(SeedTable(map[], seed, render)) == seed.uuid && VesselUuid in SeedTable(map[], seed, render)
  {
    var vessel := PutName(PutName(Upsert(map[], VesselUuid, Encode(Str(seed.uuid), render)), VesselName, seed.name, render),
                          VesselMmsi, seed.mmsi, render);
    assert Get(vessel, VesselUuid) == Some(Encode(Str(seed.uuid), render));
    var p, q := NumberRows(seed.priorities, SourcePriorities, render), NumberRows(seed.ttls, SourceTtls, render);
    NumberRowsAt(seed.priorities, SourcePriorities, render, VesselUuid);
    NumberRowsAt(seed.ttls, SourceTtls, render, VesselUuid);
    OverlayAt(vessel, p, VesselUuid);
    OverlayAt(vessel + p, q, VesselUuid);
    PluginsLeaveUuid(vessel + p + q, seed.plugins, |seed.plugins|, render);
  }

  /** From a fresh database seeded with a UUID, no setter other than an empty
      `set_vessel_uuid` can lose it: the row stays, and reopening restores everything. */
  lemma FreshDatabaseSurvivesRestart(seed: SeedConfig, generated: string, setters: seq<Setter>, render: Json -> string)
    requires seed.uuid != "" && SetUuid("") !in setters
    ensures var start := Opened(map[], seed, render);
            var (t, c) := Run(start, LoadCache(start, generated), setters, |setters|, render);
            VesselUuid in t && ReopensSame(t, c, render)
  {
    SeedStoresUuid(seed, render);
    var start := Opened(map[], seed, render);
    LoadAgrees(start, generated);
    AlwaysAgrees(start, LoadCache(start, generated), setters, |setters|, render);
    LastUuidNotEmpty(StoredUuid(start), setters, |setters|);
    ReopeningRestoresIffUuidSet(map[], seed, generated, setters, render);
  }

  lemma {:induction false} LastUuidNotEmpty(stored: string, setters: seq<Setter>, n: nat)
    requires n <= |setters| && stored != "" && SetUuid("") !in setters
    ensures LastUuid(stored, setters, n) != ""
  {
    if n > 0 {
      LastUuidNotEmpty(stored, setters, n - 1);
      assert setters[n - 1] in setters;
    }
  }
}
