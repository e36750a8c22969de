/** What the configuration store holds: the seed of a fresh database, and after any run of
    setters what was set last (crates/signalk-server/src/config_store.rs). */
module ConfigSettings {
  import opened Basics
  import opened JsonModel
  import opened ConfigStore
  import opened ConfigRuns

  // ----- a fresh database holds its seed -----

  /** The plugins' entries are the last seeded ones of each identifier. */
  ghost predicate LastSeeded(seeds: seq<PluginSeed>, id: string, e: Option<Entry>) {
    if e.None? then forall i :: 0 <= i < |seeds| ==> seeds[i].id != id
    else exists i :: 0 <= i < |seeds| && seeds[i].id == id && e == Some(seeds[i].entry) && forall j :: i < j < |seeds| ==> seeds[j].id != id
  }

  ghost predicate HoldsSeed(c: Cache, seed: SeedConfig) {
    && (seed.uuid != "" ==> c.uuid == seed.uuid)
    && c.name == seed.name && c.mmsi == seed.mmsi && c.priorities == seed.priorities && c.ttls == seed.ttls
    && forall id :: LastSeeded(seed.plugins, id, Get(c.plugins, id))
  }

  function LastSeed(seeds: seq<PluginSeed>, n: nat, id: string): Option<Entry>
    requires n <= |seeds|
  {
    if n == 0 then None else if seeds[n - 1].id == id then Some(seeds[n - 1].entry) else LastSeed(seeds, n - 1, id)
  }

  lemma {:induction false} LastSeedIsLast(seeds: seq<PluginSeed>, n: nat, id: string)
    requires n <= |seeds|
    ensures LastSeeded(seeds[..n], id, LastSeed(seeds, n, id))
  {
    if n > 0 {
      LastSeedIsLast(seeds, n - 1, id);
      if seeds[n - 1].id != id && LastSeed(seeds, n - 1, id).Some? {
        var shorter := seeds[..n - 1];
        var i :| 0 <= i < |shorter| && shorter[i].id == id && LastSeed(seeds, n - 1, id) == Some(shorter[i].entry)
                 && forall j :: i < j < |shorter| ==> shorter[j].id != id;
        assert forall j :: 0 <= j < n - 1 ==> seeds[..n][j] == shorter[j];
      } else if seeds[n - 1].id == id {
        assert seeds[..n][n - 1] == seeds[n - 1];
      } else {
        assert forall i :: 0 <= i < n - 1 ==> seeds[..n][i] == seeds[..n - 1][i];
      }
    }
  }

  function PluginCell(e: Option<Entry>, render: Json -> string): Option<Cell> {
    if e.None? then None else Some(Encode(EntryJson(e.value), render))
  }

  lemma {:induction false} PluginRowAt(table: Table, seeds: seq<PluginSeed>, n: nat, render: Json -> string, k: Key)
    requires n <= |seeds|
    ensures Get(PutPlugins(table, seeds, n, render), k)
         == if k.Key? && k.ns == Plugins && LastSeed(seeds, n, k.name).Some?
            then PluginCell(LastSeed(seeds, n, k.name), render) else Get(table, k)
  {
    if n > 0 {
      PluginRowAt(table, seeds, n - 1, render, k);
    }
  }

  function TextCell(s: Option<string>, render: Json -> string): Option<Cell> {
    if s.None? then None else Some(Encode(Str(s.value), render))
  }

  /** The rows that identify the vessel. */
  function VesselRows(seed: SeedConfig, render: Json -> string): Table {
    PutName(PutName(Upsert(map[], VesselUuid, Encode(Str(seed.uuid), render)), VesselName, seed.name, render),
            VesselMmsi, seed.mmsi, render)
  }

  function VesselRow(seed: SeedConfig, render: Json -> string, k: Key): Option<Cell> {
    match k
    case VesselUuid => TextCell(Some(seed.uuid), render)
    case VesselName => TextCell(seed.name, render)
    case VesselMmsi => TextCell(seed.mmsi, render)
    case Key(_, _) => None
  }

  lemma VesselRowAt(seed: SeedConfig, render: Json -> string, k: Key)
    ensures Get(VesselRows(seed, render), k) == VesselRow(seed, render, k)
  {}

  lemma SeedInLayers(seed: SeedConfig, render: Json -> string)
    ensures SeedTable(map[], seed, render)
         == PutPlugins(VesselRows(seed, render) + NumberRows(seed.priorities, SourcePriorities, render)
                       + NumberRows(seed.ttls, SourceTtls, render), seed.plugins, |seed.plugins|, render)
  {}

  lemma LayersAt(table: Table, p: map<string, nat>, q: map<string, nat>, render: Json -> string, k: Key)
    ensures Get(table + NumberRows(p, SourcePriorities, render) + NumberRows(q, SourceTtls, render), k)
         == if NumberAt(q, SourceTtls, render, k).Some? then NumberAt(q, SourceTtls, render, k)
            else if NumberAt(p, SourcePriorities, render, k).Some? then NumberAt(p, SourcePriorities, render, k)
            else Get(table, k)
  {
    var ps, qs := NumberRows(p, SourcePriorities, render), NumberRows(q, SourceTtls, render);
    NumberRowsAt(p, SourcePriorities, render, k);
    NumberRowsAt(q, SourceTtls, render, k);
    OverlayAt(table, ps, k);
    OverlayAt(table + ps, qs, k);
  }

  /** The rows of a freshly seeded table. */
  lemma SeedRowAt(seed: SeedConfig, render: Json -> string, k: Key)
    ensures Get(SeedTable(map[], seed, render), k)
         == if !k.Key? then VesselRow(seed, render, k)
            else if k.ns == SourcePriorities then NumberAt(seed.priorities, k.ns, render, k)
            else if k.ns == SourceTtls then NumberAt(seed.ttls, k.ns, render, k)
            else if k.ns == Plugins then PluginCell(LastSeed(seed.plugins, |seed.plugins|, k.name), render)
            else None
  {
    var vessel := VesselRows(seed, render);
    var sources := vessel + NumberRows(seed.priorities, SourcePriorities, render) + NumberRows(seed.ttls, SourceTtls, render);
    SeedInLayers(seed, render);
    VesselRowAt(seed, render, k);
    LayersAt(vessel, seed.priorities, seed.ttls, render, k);
    PluginRowAt(sources, seed.plugins, |seed.plugins|, render, k);
  }

  lemma SeededNumbers<T>(values: map<string, T>, m: map<string, nat>, table: Table, ns: Namespace, decode: Cell -> Option<T>,
                         render: Json -> string)
    requires m.Keys == values.Keys && forall name <- m :: decode(NumCell(m[name], render)) == Some(values[name])
    requires forall name :: Get(table, Key(ns, name)) == NumberAt(m, ns, render, Key(ns, name))
    ensures Section(table, ns, decode) == values
  {
    forall name ensures Get(values, name) == EntryAt(table, ns, decode, name) {
      assert Get(table, Key(ns, name)) == NumberAt(m, ns, render, Key(ns, name));
    }
    SectionUnique(values, table, ns, decode);
  }

  lemma SeedPriorities(seed: SeedConfig, render: Json -> string)
    ensures Section(SeedTable(map[], seed, render), SourcePriorities, DecodeU16) == seed.priorities
  {
    forall name ensures Get(SeedTable(map[], seed, render), Key(SourcePriorities, name))
                     == NumberAt(seed.priorities, SourcePriorities, render, Key(SourcePriorities, name)) {
      SeedRowAt(seed, render, Key(SourcePriorities, name));
    }
    forall name | name in seed.priorities ensures DecodeU16(NumCell(seed.priorities[name], render)) == Some(seed.priorities[name]) {
      NumberRoundTrip(seed.priorities[name], 0x1_0000, render);
    }
    SeededNumbers(seed.priorities, seed.priorities, SeedTable(map[], seed, render), SourcePriorities, DecodeU16, render);
  }

  lemma SeedTtls(seed: SeedConfig, render: Json -> string)
    ensures Section(SeedTable(map[], seed, render), SourceTtls, DecodeU64) == seed.ttls
  {
    forall name ensures Get(SeedTable(map[], seed, render), Key(SourceTtls, name))
                     == NumberAt(seed.ttls, SourceTtls, render, Key(SourceTtls, name)) {
      SeedRowAt(seed, render, Key(SourceTtls, name));
    }
    forall name | name in seed.ttls ensures DecodeU64(NumCell(seed.ttls[name], render)) == Some(seed.ttls[name]) {
      NumberRoundTrip(seed.ttls[name], 0x1_0000_0000_0000_0000, render);
    }
    SeededNumbers(seed.ttls, seed.ttls, SeedTable(map[], seed, render), SourceTtls, DecodeU64, render);
  }

  lemma PluginSection(table: Table, id: string, e: Option<Entry>, render: Json -> string)
    requires Get(table, Key(Plugins, id)) == PluginCell(e, render)
    ensures Get(Section(table, Plugins, DecodeEntry), id) == e
  {
    SectionIsSection(table, Plugins, DecodeEntry);
    assert Get(Section(table, Plugins, DecodeEntry), id) == EntryAt(table, Plugins, DecodeEntry, id);
    if e.Some? {
      EntryRoundTrip(e.value, render);
    }
  }

  lemma LastSeedOfAll(seeds: seq<PluginSeed>, id: string)
    ensures LastSeeded(seeds, id, LastSeed(seeds, |seeds|, id))
  {
    LastSeedIsLast(seeds, |seeds|, id);
    assert seeds[..|seeds|] == seeds;
  }

  lemma SeedPlugin(seed: SeedConfig, render: Json -> string, id: string)
    ensures LastSeeded(seed.plugins, id, Get(Section(SeedTable(map[], seed, render), Plugins, DecodeEntry), id))
  {
    SeedRowAt(seed, render, Key(Plugins, id));
    PluginSection(SeedTable(map[], seed, render), id, LastSeed(seed.plugins, |seed.plugins|, id), render);
    LastSeedOfAll(seed.plugins, id);
  }

  lemma SeedIdentity(seed: SeedConfig, render: Json -> string)
    ensures var table := SeedTable(map[], seed, render);
            StoredUuid(table) == seed.uuid && Stored(table, VesselName) == seed.name && Stored(table, VesselMmsi) == seed.mmsi
  {
    SeedRowAt(seed, render, VesselUuid);
    SeedRowAt(seed, render, VesselName);
    SeedRowAt(seed, render, VesselMmsi);
  }

  lemma LoadedParts(table: Table, seed: SeedConfig, generated: string)
    requires StoredUuid(table) == seed.uuid && Stored(table, VesselName) == seed.name && Stored(table, VesselMmsi) == seed.mmsi
    requires Section(table, SourcePriorities, DecodeU16) == seed.priorities && Section(table, SourceTtls, DecodeU64) == seed.ttls
    requires forall id :: LastSeeded(seed.plugins, id, Get(Section(table, Plugins, DecodeEntry), id))
    ensures HoldsSeed(LoadCache(table, generated), seed)
  {}

  /** Main result: a store opened on an empty table holds every part of its seed, with the
      last entry of each plugin. */
  lemma FreshStoreHoldsSeed(seed: SeedConfig, generated: string, render: Json -> string)
    ensures HoldsSeed(LoadCache(Opened(map[], seed, render), generated), seed)
  {
    SeedIdentity(seed, render);
    SeedPriorities(seed, render);
    SeedTtls(seed, render);
    forall id ensures LastSeeded(seed.plugins, id, Get(Section(SeedTable(map[], seed, render), Plugins, DecodeEntry), id)) {
      SeedPlugin(seed, render, id);
    }
    LoadedParts(SeedTable(map[], seed, render), seed, generated);
  }

  // ----- what was set last holds -----

  predicate IsFor(s: Setter, id: string) {
    (s.SetPluginConfig? || s.SetPluginEnabled?) && s.id == id
  }

  /** The value a search from the last setter back to the first finds. */
  function LastOf<T>(find: Setter -> Option<T>, setters: seq<Setter>, n: nat): Option<T>
    requires n <= |setters|
  {
    if n == 0 then None else if find(setters[n - 1]).Some? then find(setters[n - 1]) else LastOf(find, setters, n - 1)
  }

  function FlagIn(id: string): Setter -> Option<bool> {
    (s: Setter) => if s.SetPluginEnabled? && s.id == id then Some(s.enabled) else None
  }

  function ConfigIn(id: string): Setter -> Option<Json> {
    (s: Setter) => if s.SetPluginConfig? && s.id == id then Some(s.config) else None
  }

  function Or<T>(a: Option<T>, b: T): T {
    if a.Some? then a.value else b
  }

  /** A plugin's entry by what was set last, what was there before, and the defaults:
      enabled, and an empty object. */
  function EntryFrom(was: Option<Entry>, flag: Option<bool>, config: Option<Json>): Option<Entry> {
    if was.None? && flag.None? && config.None? then None
    else Some(Entry(Or(flag, if was.Some? then was.value.enabled else true),
                    Or(config, if was.Some? then was.value.config else Obj(map[]))))
  }

  lemma PluginStep(c: Cache, s: Setter, id: string)
    ensures Get(CacheAfter(c, s).plugins, id) == EntryFrom(Get(c.plugins, id), FlagIn(id)(s), ConfigIn(id)(s))
  {}

  lemma CacheOfRun(t: Table, c: Cache, setters: seq<Setter>, n: nat, render: Json -> string)
    requires 0 < n <= |setters|
    ensures Run(t, c, setters, n, render).1 == CacheAfter(Run(t, c, setters, n - 1, render).1, setters[n - 1])
  {}

  /** Main result: after every run of setters, a plugin is enabled as it was last switched and
      configured as it was last configured, by whatever setters in between. */
  lemma {:induction false} PluginsHoldLastSettings(t: Table, c: Cache, setters: seq<Setter>, n: nat, render: Json -> string, id: string)
    requires n <= |setters|
    ensures Get(Run(t, c, setters, n, render).1.plugins, id)
         == EntryFrom(Get(c.plugins, id), LastOf(FlagIn(id), setters, n), LastOf(ConfigIn(id), setters, n))
  {
    if n > 0 {
      PluginsHoldLastSettings(t, c, setters, n - 1, render, id);
      CacheOfRun(t, c, setters, n, render);
      PluginStep(Run(t, c, setters, n - 1, render).1, setters[n - 1], id);
    }
  }

  function VesselIn(s: Setter): Option<(Option<string>, Option<string>)> {
    if s.SetVessel? then Some((s.name, s.mmsi)) else None
  }

  function PrioritiesIn(s: Setter): Option<map<string, U16>> {
    if s.SetPriorities? then Some(s.priorities) else None
  }

  function TtlsIn(s: Setter): Option<map<string, U64>> {
    if s.SetTtls? then Some(s.ttls) else None
  }

  predicate HoldsOthers(now: Cache, vessel: (Option<string>, Option<string>), priorities: map<string, U16>, ttls: map<string, U64>) {
    (now.name, now.mmsi) == vessel && now.priorities == priorities && now.ttls == ttls
  }

  lemma OthersStep(c: Cache, s: Setter, vessel: (Option<string>, Option<string>), priorities: map<string, U16>, ttls: map<string, U64>)
    requires HoldsOthers(c, vessel, priorities, ttls)
    ensures HoldsOthers(CacheAfter(c, s), Or(VesselIn(s), vessel), Or(PrioritiesIn(s), priorities), Or(TtlsIn(s), ttls))
  {}

  /** The vessel, the priorities and the times to live are the last ones set, as a whole. */
  lemma {:induction false} OthersHoldLastSettings(t: Table, c: Cache, setters: seq<Setter>, n: nat, render: Json -> string)
    requires n <= |setters|
    ensures HoldsOthers(Run(t, c, setters, n, render).1, Or(LastOf(VesselIn, setters, n), (c.name, c.mmsi)),
                        Or(LastOf(PrioritiesIn, setters, n), c.priorities), Or(LastOf(TtlsIn, setters, n), c.ttls))
  {
    if n > 0 {
      OthersHoldLastSettings(t, c, setters, n - 1, render);
      CacheOfRun(t, c, setters, n, render);
      OthersStep(Run(t, c, setters, n - 1, render).1, setters[n - 1], Or(LastOf(VesselIn, setters, n - 1), (c.name, c.mmsi)),
                 Or(LastOf(PrioritiesIn, setters, n - 1), c.priorities), Or(LastOf(TtlsIn, setters, n - 1), c.ttls));
    }
  }
}
