/** The configuration store: a cache in front of a table of JSON texts
    (crates/signalk-server/src/config_store.rs). */
module ConfigStore {
  import opened Basics
  import opened JsonModel

  // ----- rows -----

  /** The namespaces the store knows besides `server`; it ignores all others. */
  datatype Namespace = SourcePriorities | SourceTtls | Plugins | Unknown(ns: string)

  /** The primary key of a row: one of the three known keys of the namespace
      `server`, or a key in another namespace. */
  datatype Key = VesselUuid | VesselName | VesselMmsi | Key(ns: Namespace, name: string)

  /** A stored text with what it parses to, if it is JSON. `integral` tells whether it
      is a number written without fraction and exponent. */
  datatype Cell = Cell(text: string, json: Option<Json>, integral: bool)

  type Table = map<Key, Cell>

  type U16 = n: nat | n < 0x1_0000

  type U64 = n: nat | n < 0x1_0000_0000_0000_0000

  /** A plugin's configuration and whether it is enabled. */
  datatype Entry = Entry(enabled: bool, config: Json)

  /** A stored JSON document; `render` is its text. The only numbers stored are whole. */
  function Encode(j: Json, render: Json -> string): Cell {
    Cell(render(j), Some(j), j.Num?)
  }

  /** `from_json_str`: a text that is not a JSON string stands for itself. */
  function DecodeStr(c: Cell): string {
    if c.json.Some? && c.json.value.Str? then c.json.value.s else c.text
  }

  /** An integer from zero up to, but not including, `bound`; `5.0` is none. */
  function DecodeNat(c: Cell, bound: nat): (r: Option<nat>)
    ensures r.Some? ==> r.value < bound
  {
    if c.json.None? || !c.json.value.Num? || !c.integral then None
    else
      var n := c.json.value.n;
      if 0.0 <= n < bound as real && n.Floor as real == n then Some(n.Floor) else None
  }

  function DecodeU16(c: Cell): Option<U16> {
    DecodeNat(c, 0x1_0000)
  }

  function DecodeU64(c: Cell): Option<U64> {
    DecodeNat(c, 0x1_0000_0000_0000_0000)
  }

  /** Objects and arrays alike; a missing configuration is an empty object. */
  function DecodeEntry(c: Cell): Option<Entry> {
    match c.json
    case Some(Obj(fields)) =>
      if "enabled" !in fields || !fields["enabled"].Bool? then None
      else Some(Entry(fields["enabled"].b, if "config" in fields then fields["config"] else Obj(map[])))
    case Some(Arr(items)) =>
      if |items| == 0 || |items| > 2 || !items[0].Bool? then None
      else Some(Entry(items[0].b, if |items| == 2 then items[1] else Obj(map[])))
    case _ => None
  }

  function NumJson(n: nat): Json {
    Num(n as real)
  }

  function EntryJson(e: Entry): Json {
    Obj(map["enabled" := Bool(e.enabled), "config" := e.config])
  }

  // ----- cache -----

  datatype Cache = Cache(
    uuid: string,
    name: Option<string>,
    mmsi: Option<string>,
    priorities: map<string, U16>,
    ttls: map<string, U64>,
    plugins: map<string, Entry>)

  /** A vessel without a stored UUID gets a generated one, which is not stored. */
  function EnsureUuid(cache: Cache, generated: string): Cache {
    if cache.uuid == "" then cache.(uuid := generated) else cache
  }

  // ----- the same cache, read off the table -----

  function Section<T>(table: Table, ns: Namespace, decode: Cell -> Option<T>): map<string, T> {
    map k | k in table && k.Key? && k.ns == ns && decode(table[k]).Some? :: k.name := decode(table[k]).value
  }

  function Stored(table: Table, k: Key): Option<string> {
    if k in table then Some(DecodeStr(table[k])) else None
  }

  /** The UUID in the table, or the empty string. */
  function StoredUuid(table: Table): string {
    if VesselUuid in table then DecodeStr(table[VesselUuid]) else ""
  }

  /** The configuration a table stands for. */
  function Meaning(table: Table): Cache {
    Cache(StoredUuid(table), Stored(table, VesselName), Stored(table, VesselMmsi),
          Section(table, SourcePriorities, DecodeU16), Section(table, SourceTtls, DecodeU64),
          Section(table, Plugins, DecodeEntry))
  }

  function LoadCache(table: Table, generated: string): Cache {
    EnsureUuid(Meaning(table), generated)
  }

  function Upsert(table: Table, k: Key, c: Cell): Table {
    table[k := c]
  }

  function Without(table: Table, ns: Namespace): Table {
    map k | k in table && !(k.Key? && k.ns == ns) :: table[k]
  }

  // ----- sections, entry by entry -----

  function EntryAt<T>(table: Table, ns: Namespace, decode: Cell -> Option<T>, name: string): Option<T> {
    if Key(ns, name) in table then decode(table[Key(ns, name)]) else None
  }

  ghost predicate IsSection<T>(m: map<string, T>, table: Table, ns: Namespace, decode: Cell -> Option<T>) {
    forall name :: Get(m, name) == EntryAt(table, ns, decode, name)
  }

  lemma SectionIsSection<T>(table: Table, ns: Namespace, decode: Cell -> Option<T>)
    ensures IsSection(Section(table, ns, decode), table, ns, decode)
  {
    var m := Section(table, ns, decode);
    forall name ensures Get(m, name) == EntryAt(table, ns, decode, name) {
      var k := Key(ns, name);
      if k in table && decode(table[k]).Some? {
        assert name in m;
      }
    }
  }

  lemma SectionUnique<T>(m: map<string, T>, table: Table, ns: Namespace, decode: Cell -> Option<T>)
    requires IsSection(m, table, ns, decode)
    ensures m == Section(table, ns, decode)
  {
    var s := Section(table, ns, decode);
    SectionIsSection(table, ns, decode);
    forall name ensures Get(m, name) == Get(s, name) {}
    SameMaps(m, s);
  }

  // ----- loading reads the table's meaning, in any order -----

  /** A section after one more row has been read. */
  function AddRow<T>(m: map<string, T>, k: Key, c: Cell, ns: Namespace, decode: Cell -> Option<T>): map<string, T> {
    if k.Key? && k.ns == ns && decode(c).Some? then m[k.name := decode(c).value] else m
  }

  lemma SectionOfNewRow<T>(m: map<string, T>, table: Table, k: Key, c: Cell, ns: Namespace, decode: Cell -> Option<T>)
    requires k !in table && IsSection(m, table, ns, decode)
    ensures IsSection(AddRow(m, k, c, ns, decode), Upsert(table, k, c), ns, decode)
  {
    var more := AddRow(m, k, c, ns, decode);
    forall name ensures Get(more, name) == EntryAt(Upsert(table, k, c), ns, decode, name) {
      assert Get(m, name) == EntryAt(table, ns, decode, name);
    }
  }

  /** `load_cache`. The database may return the rows in any order; `generated` is the
      random UUID. */
  method ReadCache(table: Table, generated: string) returns (cache: Cache)
    ensures cache == LoadCache(table, generated)
  {
    var uuid, name, mmsi := "", None, None;
    var priorities: map<string, U16>, ttls: map<string, U64>, plugins: map<string, Entry> := map[], map[], map[];
    ghost var loaded: Table := map[];
    var rows := table.Keys;
    while rows != {}
      invariant rows <= table.Keys && loaded.Keys == table.Keys - rows && forall k <- loaded :: loaded[k] == table[k]
      invariant uuid == StoredUuid(loaded)
      invariant name == Stored(loaded, VesselName) && mmsi == Stored(loaded, VesselMmsi)
      invariant IsSection(priorities, loaded, SourcePriorities, DecodeU16)
      invariant IsSection(ttls, loaded, SourceTtls, DecodeU64)
      invariant IsSection(plugins, loaded, Plugins, DecodeEntry)
    {
      var k :| k in rows;
      rows := rows - {k};
      var cell := table[k];
      SectionOfNewRow(priorities, loaded, k, cell, SourcePriorities, DecodeU16);
      SectionOfNewRow(ttls, loaded, k, cell, SourceTtls, DecodeU64);
      SectionOfNewRow(plugins, loaded, k, cell, Plugins, DecodeEntry);
      loaded := Upsert(loaded, k, cell);
      match k {
        case VesselUuid => uuid := DecodeStr(cell);
        case VesselName => name := Some(DecodeStr(cell));
        case VesselMmsi => mmsi := Some(DecodeStr(cell));
        case Key(SourcePriorities, source) =>
          var v := DecodeU16(cell);
          if v.Some? {
            priorities := priorities[source := v.value];
          }
        case Key(SourceTtls, source) =>
          var v := DecodeU64(cell);
          if v.Some? {
            ttls := ttls[source := v.value];
          }
        case Key(Plugins, id) =>
          var entry := DecodeEntry(cell);
          if entry.Some? {
            plugins := plugins[id := entry.value];
          }
        case Key(Unknown(_), _) =>
      }
    }
    assert loaded == table;
    SectionUnique(priorities, loaded, SourcePriorities, DecodeU16);
    SectionUnique(ttls, loaded, SourceTtls, DecodeU64);
    SectionUnique(plugins, loaded, Plugins, DecodeEntry);
    if uuid == "" {
      uuid := generated;
    }
    cache := Cache(uuid, name, mmsi, priorities, ttls, plugins);
  }

  // ----- writing -----

  function NumCell(n: nat, render: Json -> string): Cell {
    Encode(NumJson(n), render)
  }

  /** The rows of a map of numbers. */
  function NumberRows(m: map<string, nat>, ns: Namespace, render: Json -> string): Table {
    map k | k in (set name | name in m :: Key(ns, name)) :: NumCell(m[k.name], render)
  }

  function NumberAt(m: map<string, nat>, ns: Namespace, render: Json -> string, k: Key): Option<Cell> {
    if k.Key? && k.ns == ns && k.name in m then Some(NumCell(m[k.name], render)) else None
  }

  lemma NumberRowsAt(m: map<string, nat>, ns: Namespace, render: Json -> string, k: Key)
    ensures Get(NumberRows(m, ns, render), k) == NumberAt(m, ns, render, k)
  {}

  /** Rows written over a table hide what it had under their keys. */
  lemma OverlayAt(table: Table, over: Table, k: Key)
    ensures Get(table + over, k) == if k in over then Get(over, k) else Get(table, k)
  {}

  lemma RowsOfMoreNumbers(table: Table, m: map<string, nat>, name: string, v: nat, ns: Namespace, render: Json -> string)
    ensures table + NumberRows(m[name := v], ns, render) == Upsert(table + NumberRows(m, ns, render), Key(ns, name), NumCell(v, render))
  {
    var was, more := NumberRows(m, ns, render), NumberRows(m[name := v], ns, render);
    forall k ensures Get(table + more, k) == Get(Upsert(table + was, Key(ns, name), NumCell(v, render)), k) {
      NumberRowsAt(m, ns, render, k);
      NumberRowsAt(m[name := v], ns, render, k);
      OverlayAt(table, was, k);
      OverlayAt(table, more, k);
    }
    SameMaps(table + more, Upsert(table + was, Key(ns, name), NumCell(v, render)));
  }

  lemma NoNumberRows(table: Table, m: map<string, nat>, ns: Namespace, render: Json -> string)
    requires m == map[]
    ensures table + NumberRows(m, ns, render) == table
  {
    assert NumberRows(m, ns, render) == map[];
  }

  /** Upserts a map of numbers, in any order. */
  method PutNumbers(table: Table, m: map<string, nat>, ns: Namespace, render: Json -> string) returns (t: Table)
    ensures t == table + NumberRows(m, ns, render)
  {
    t := table;
    ghost var done: map<string, nat> := map[];
    var names := m.Keys;
    NoNumberRows(table, done, ns, render);
    while names != {}
      invariant forall name :: name in done <==> name in m && name !in names
      invariant names <= m.Keys && forall name <- done :: done[name] == m[name]
      invariant t == table + NumberRows(done, ns, render)
    {
      var name :| name in names;
      names := names - {name};
      RowsOfMoreNumbers(table, done, name, m[name], ns, render);
      t := Upsert(t, Key(ns, name), NumCell(m[name], render));
      done := done[name := m[name]];
    }
    assert done == m;
  }

  function PutOrDelete(table: Table, k: Key, value: Option<string>, render: Json -> string): Table {
    if value.Some? then Upsert(table, k, Encode(Str(value.value), render)) else table - {k}
  }

  // ----- seeding -----

  datatype PluginSeed = PluginSeed(id: string, entry: Entry)

  datatype SeedConfig = SeedConfig(
    uuid: string,
    name: Option<string>,
    mmsi: Option<string>,
    priorities: map<string, U16>,
    ttls: map<string, U64>,
    plugins: seq<PluginSeed>)

  function PutName(table: Table, k: Key, value: Option<string>, render: Json -> string): Table {
    if value.Some? then Upsert(table, k, Encode(Str(value.value), render)) else table
  }

  function PutPlugins(table: Table, plugins: seq<PluginSeed>, n: nat, render: Json -> string): Table
    requires n <= |plugins|
  {
    if n == 0 then table
    else Upsert(PutPlugins(table, plugins, n - 1, render), Key(Plugins, plugins[n - 1].id), Encode(EntryJson(plugins[n - 1].entry), render))
  }

  function SeedTable(table: Table, seed: SeedConfig, render: Json -> string): Table {
    var vessel := PutName(PutName(Upsert(table, VesselUuid, Encode(Str(seed.uuid), render)), VesselName, seed.name, render),
                          VesselMmsi, seed.mmsi, render);
    var sources := vessel + NumberRows(seed.priorities, SourcePriorities, render) + NumberRows(seed.ttls, SourceTtls, render);
    PutPlugins(sources, seed.plugins, |seed.plugins|, render)
  }

  /** The table when the store has been opened: only an empty one is seeded. */
  function Opened(table: Table, seed: SeedConfig, render: Json -> string): Table {
    if |table| == 0 then SeedTable(table, seed, render) else table
  }

  method SeedFromConfig(table: Table, seed: SeedConfig, render: Json -> string) returns (t: Table)
    ensures t == SeedTable(table, seed, render)
  {
    t := Upsert(table, VesselUuid, Encode(Str(seed.uuid), render));
    if seed.name.Some? {
      t := Upsert(t, VesselName, Encode(Str(seed.name.value), render));
    }
    if seed.mmsi.Some? {
      t := Upsert(t, VesselMmsi, Encode(Str(seed.mmsi.value), render));
    }
    t := PutNumbers(t, seed.priorities, SourcePriorities, render);
    t := PutNumbers(t, seed.ttls, SourceTtls, render);
    t := SeedPlugins(t, seed.plugins, render);
  }

  method SeedPlugins(table: Table, plugins: seq<PluginSeed>, render: Json -> string) returns (t: Table)
    ensures t == PutPlugins(table, plugins, |plugins|, render)
  {
    t := table;
    for i := 0 to |plugins|
      invariant t == PutPlugins(table, plugins, i, render)
    {
      t := Upsert(t, Key(Plugins, plugins[i].id), Encode(EntryJson(plugins[i].entry), render));
    }
  }

  method SeedIfEmpty(table: Table, seed: SeedConfig, render: Json -> string) returns (t: Table)
    ensures t == Opened(table, seed, render)
  {
    t := table;
    if |table| == 0 {
      t := SeedFromConfig(table, seed, render);
    }
  }

  // ----- setters -----

  datatype Setter =
    | SetVessel(name: Option<string>, mmsi: Option<string>)
    | SetUuid(uuid: string)
    | SetPriorities(priorities: map<string, U16>)
    | SetTtls(ttls: map<string, U64>)
    | SetPluginConfig(id: string, config: Json)
    | SetPluginEnabled(id: string, enabled: bool)

  /** A plugin without an entry starts enabled, unless the call says otherwise. */
  function Configured(cache: Cache, id: string, config: Json): Entry {
    Entry(if id in cache.plugins then cache.plugins[id].enabled else true, config)
  }

  function Switched(cache: Cache, id: string, enabled: bool): Entry {
    Entry(enabled, if id in cache.plugins then cache.plugins[id].config else Obj(map[]))
  }

  function CacheAfter(cache: Cache, s: Setter): Cache {
    match s
    case SetVessel(name, mmsi) => cache.(name := name, mmsi := mmsi)
    case SetUuid(uuid) => cache.(uuid := uuid)
    case SetPriorities(priorities) => cache.(priorities := priorities)
    case SetTtls(ttls) => cache.(ttls := ttls)
    case SetPluginConfig(id, config) => cache.(plugins := cache.plugins[id := Configured(cache, id, config)])
    case SetPluginEnabled(id, enabled) => cache.(plugins := cache.plugins[id := Switched(cache, id, enabled)])
  }

  function TableAfter(table: Table, cache: Cache, s: Setter, render: Json -> string): Table {
    match s
    case SetVessel(name, mmsi) => PutOrDelete(PutOrDelete(table, VesselName, name, render), VesselMmsi, mmsi, render)
    case SetUuid(uuid) => Upsert(table, VesselUuid, Encode(Str(uuid), render))
    case SetPriorities(priorities) => Without(table, SourcePriorities) + NumberRows(priorities, SourcePriorities, render)
    case SetTtls(ttls) => Without(table, SourceTtls) + NumberRows(ttls, SourceTtls, render)
    case SetPluginConfig(id, config) =>
      Upsert(table, Key(Plugins, id), Encode(EntryJson(Configured(cache, id, config)), render))
    case SetPluginEnabled(id, enabled) =>
      Upsert(table, Key(Plugins, id), Encode(EntryJson(Switched(cache, id, enabled)), render))
  }

  class ConfigStore {
    const render: Json -> string
    var table: Table
    var cache: Cache

    constructor (table: Table, seed: SeedConfig, generated: string, render: Json -> string)
      ensures this.render == render && this.table == Opened(table, seed, render)
      ensures cache == LoadCache(this.table, generated)
    {
      var t := SeedIfEmpty(table, seed, render);
      var c := ReadCache(t, generated);
      this.render, this.table, cache := render, t, c;
    }

    method SetVessel(name: Option<string>, mmsi: Option<string>)
      modifies this
      ensures cache == CacheAfter(old(cache), Setter.SetVessel(name, mmsi))
      ensures table == TableAfter(old(table), old(cache), Setter.SetVessel(name, mmsi), render)
    {
      if name.Some? {
        table := Upsert(table, VesselName, Encode(Str(name.value), render));
      } else {
        table := table - {VesselName};
      }
      if mmsi.Some? {
        table := Upsert(table, VesselMmsi, Encode(Str(mmsi.value), render));
      } else {
        table := table - {VesselMmsi};
      }
      cache := cache.(name := name, mmsi := mmsi);
    }

    method SetVesselUuid(uuid: string)
      modifies this
      ensures cache == CacheAfter(old(cache), SetUuid(uuid))
      ensures table == TableAfter(old(table), old(cache), SetUuid(uuid), render)
    {
      table := Upsert(table, VesselUuid, Encode(Str(uuid), render));
      cache := cache.(uuid := uuid);
    }

    method SetSourcePriorities(priorities: map<string, U16>)
      modifies this
      ensures cache == CacheAfter(old(cache), SetPriorities(priorities))
      ensures table == TableAfter(old(table), old(cache), SetPriorities(priorities), render)
    {
      table := PutNumbers(Without(table, SourcePriorities), priorities, SourcePriorities, render);
      cache := cache.(priorities := priorities);
    }

    method SetSourceTtls(ttls: map<string, U64>)
      modifies this
      ensures cache == CacheAfter(old(cache), SetTtls(ttls))
      ensures table == TableAfter(old(table), old(cache), SetTtls(ttls), render)
    {
      table := PutNumbers(Without(table, SourceTtls), ttls, SourceTtls, render);
      cache := cache.(ttls := ttls);
    }

    method SetPluginConfig(id: string, config: Json)
      modifies this
      ensures cache == CacheAfter(old(cache), Setter.SetPluginConfig(id, config))
      ensures table == TableAfter(old(table), old(cache), Setter.SetPluginConfig(id, config), render)
    {
      var entry := if id in cache.plugins then cache.plugins[id] else Entry(true, Obj(map[]));
      entry := entry.(config := config);
      cache := cache.(plugins := cache.plugins[id := entry]);
      table := Upsert(table, Key(Plugins, id), Encode(EntryJson(entry), render));
    }

    method SetPluginEnabled(id: string, enabled: bool)
      modifies this
      ensures cache == CacheAfter(old(cache), Setter.SetPluginEnabled(id, enabled))
      ensures table == TableAfter(old(table), old(cache), Setter.SetPluginEnabled(id, enabled), render)
    {
      var entry := if id in cache.plugins then cache.plugins[id] else Entry(enabled, Obj(map[]));
      entry := entry.(enabled := enabled);
      cache := cache.(plugins := cache.plugins[id := entry]);
      table := Upsert(table, Key(Plugins, id), Encode(EntryJson(entry), render));
    }
  }
}
