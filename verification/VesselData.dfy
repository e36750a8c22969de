/** A vessel's flat path map, printed as a nested JSON object and parsed back
    (crates/signalk-types/src/full.rs). */
module FullModel {
  import opened Basics
  import opened JsonModel
  import opened Paths

  type Fields = map<string, Json>

  datatype SourceValue = SourceValue(value: Json, timestamp: string)

  datatype SignalKValue = SignalKValue(value: Json, source: string, timestamp: string,
                                       meta: Option<Fields>, values: Option<map<string, SourceValue>>)

  datatype VesselData = VesselData(uuid: Option<string>, name: Option<string>, mmsi: Option<string>,
                                   values: map<string, SignalKValue>)

  const RESERVED: set<string> := {"uuid", "name", "mmsi"}

  // ----- a single value as a JSON object -----

  function SourceValueJson(v: SourceValue): Json {
    Obj(map["value" := v.value, "timestamp" := Str(v.timestamp)])
  }

  function LeafFields(v: SignalKValue): Fields {
    map["value" := v.value, "$source" := Str(v.source), "timestamp" := Str(v.timestamp)]
    + (if v.meta.Some? then map["meta" := Obj(v.meta.value)] else map[])
    + (if v.values.Some?
       then map["values" := Obj(map k | k in v.values.value :: SourceValueJson(v.values.value[k]))]
       else map[])
  }

  function LeafJson(v: SignalKValue): Json {
    Obj(LeafFields(v))
  }

  function ParseSourceValue(j: Json): Option<SourceValue> {
    if j.Obj? && "value" in j.fields && "timestamp" in j.fields && j.fields["timestamp"].Str?
    then Some(SourceValue(j.fields["value"], j.fields["timestamp"].s))
    else None
  }

  /** An optional object field: absent or null means `None`. */
  function ParseMeta(f: Fields): Result<Option<Fields>, string> {
    if "meta" !in f || f["meta"].Null? then Ok(None)
    else if f["meta"].Obj? then Ok(Some(f["meta"].fields))
    else Err("meta")
  }

  function ParseValues(f: Fields): Result<Option<map<string, SourceValue>>, string> {
    if "values" !in f || f["values"].Null? then Ok(None)
    else if f["values"].Obj? && forall k :: k in f["values"].fields ==> ParseSourceValue(f["values"].fields[k]).Some?
    then Ok(Some(map k | k in f["values"].fields :: ParseSourceValue(f["values"].fields[k]).value))
    else Err("values")
  }

  /** `serde_json::from_value::<SignalKValue>`; unknown fields are ignored. */
  function ParseLeaf(j: Json): Result<SignalKValue, string> {
    if !j.Obj? then Err("not an object")
    else if "value" !in j.fields then Err("missing field value")
    else if "$source" !in j.fields || !j.fields["$source"].Str? then Err("$source")
    else if "timestamp" !in j.fields || !j.fields["timestamp"].Str? then Err("timestamp")
    else match (ParseMeta(j.fields), ParseValues(j.fields))
      case (Ok(meta), Ok(values)) =>
        Ok(SignalKValue(j.fields["value"], j.fields["$source"].s, j.fields["timestamp"].s, meta, values))
      case _ => Err("meta or values")
  }

  lemma LeafLookup(v: SignalKValue)
    ensures var f := LeafFields(v);
            && Get(f, "value") == Some(v.value)
            && Get(f, "$source") == Some(Str(v.source))
            && Get(f, "timestamp") == Some(Str(v.timestamp))
            && Get(f, "meta") == (if v.meta.Some? then Some(Obj(v.meta.value)) else None)
            && Get(f, "values") == (if v.values.Some?
                 then Some(Obj(map k | k in v.values.value :: SourceValueJson(v.values.value[k]))) else None)
  {
    assert |"value"| == 5 && |"$source"| == 7 && |"timestamp"| == 9 && |"meta"| == 4 && |"values"| == 6;
  }

  lemma ParseOfSourceValue(v: SourceValue)
    ensures ParseSourceValue(SourceValueJson(v)) == Some(v)
  {
    assert |"value"| == 5 && |"timestamp"| == 9;
  }

  lemma ParseOfValues(f: Fields, vs: map<string, SourceValue>)
    requires Get(f, "values") == Some(Obj(map k | k in vs :: SourceValueJson(vs[k])))
    ensures ParseValues(f) == Ok(Some(vs))
  {
    forall k | k in vs ensures ParseSourceValue(f["values"].fields[k]) == Some(vs[k]) {
      ParseOfSourceValue(vs[k]);
    }
    assert (map k | k in f["values"].fields :: ParseSourceValue(f["values"].fields[k]).value) == vs;
  }

  lemma ParseOfLeaf(v: SignalKValue)
    ensures ParseLeaf(LeafJson(v)) == Ok(v)
    ensures Marked(LeafFields(v))
  {
    LeafLookup(v);
    var f := LeafFields(v);
    if v.values.Some? {
      ParseOfValues(f, v.values.value);
    }
    assert ParseMeta(f) == Ok(v.meta) && ParseValues(f) == Ok(v.values);
  }

  // ----- printing -----

  /** Sets the value at the nested path `parts`, creating objects on the way;
      a non-object on the way swallows the value. */
  function InsertNested(f: Fields, parts: seq<string>, value: Json): (r: Fields)
    ensures f.Keys <= r.Keys
    decreases |parts|
  {
    if parts == [] then f
    else if |parts| == 1 then f[parts[0] := value]
    else
      var entry := if parts[0] in f then f[parts[0]] else Obj(map[]);
      match entry
      case Obj(nested) => f[parts[0] := Obj(InsertNested(nested, parts[1..], value))]
      case _ => f[parts[0] := entry]
  }

  function IdentityFields(v: VesselData): Fields {
    (if v.uuid.Some? then map["uuid" := Str(v.uuid.value)] else map[])
    + (if v.name.Some? then map["name" := Str(v.name.value)] else map[])
    + (if v.mmsi.Some? then map["mmsi" := Str(v.mmsi.value)] else map[])
  }

  function InsertAll(f: Fields, values: map<string, SignalKValue>, order: seq<string>): Fields
    requires forall k :: k in order ==> k in values
  {
    if order == [] then f
    else
      var k := order[|order| - 1];
      InsertNested(InsertAll(f, values, order[..|order| - 1]), Split(k), LeafJson(values[k]))
  }

  /** The nested object for one iteration order of the flat map. */
  function SerializedIn(v: VesselData, order: seq<string>): Fields
    requires forall k :: k in order ==> k in v.values
  {
    InsertAll(IdentityFields(v), v.values, order)
  }

  /** `doc` is what some iteration order prints. */
  ghost predicate Serialized(v: VesselData, doc: Fields) {
    exists order :: IsOrder(order, v.values.Keys) && doc == SerializedIn(v, order)
  }

  method Serialize(v: VesselData) returns (doc: Fields)
    ensures Serialized(v, doc)
  {
    doc := map[];
    if v.uuid.Some? { doc := doc["uuid" := Str(v.uuid.value)]; }
    if v.name.Some? { doc := doc["name" := Str(v.name.value)]; }
    if v.mmsi.Some? { doc := doc["mmsi" := Str(v.mmsi.value)]; }
    assert doc == IdentityFields(v);
    ghost var order := [];
    var todo := v.values.Keys;
    while todo != {}
      invariant todo <= v.values.Keys
      invariant IsOrder(order, v.values.Keys - todo)
      invariant doc == SerializedIn(v, order)
    {
      var key :| key in todo;
      doc := InsertNested(doc, Split(key), LeafJson(v.values[key]));
      assert (order + [key])[..|order|] == order;
      order := order + [key];
      todo := todo - {key};
    }
  }

  // ----- parsing -----

  /** The heuristic that tells a value from an interior node. */
  predicate Marked(f: Fields) {
    "value" in f && "$source" in f && "timestamp" in f
  }

  function ChildPrefix(prefix: string, key: string): string {
    if prefix == "" then key else prefix + "." + key
  }

  /** Every value found below `json`, with the flat key it is filed under. */
  ghost function Leaves(prefix: string, json: Json): set<(string, Json)>
    decreases json
  {
    if !json.Obj? then {}
    else if Marked(json.fields) then {(prefix, json)}
    else set k, e | k in json.fields && e in Leaves(ChildPrefix(prefix, k), json.fields[k]) :: e
  }

  ghost function LeavesUnder(prefix: string, f: Fields, keys: set<string>): set<(string, Json)>
  {
    set k, e | k in f && k in keys && e in Leaves(ChildPrefix(prefix, k), f[k]) :: e
  }

  /** `values` is `before` overwritten with the parsed `leaves`; where two leaves
      share a key, either may win. */
  ghost predicate Filed(values: map<string, SignalKValue>, before: map<string, SignalKValue>, leaves: set<(string, Json)>) {
    && (forall e :: e in leaves ==> ParseLeaf(e.1).Ok? && e.0 in values)
    && (forall k :: k in values ==> (k in before && values[k] == before[k] && forall e :: e in leaves ==> e.0 != k)
                                    || exists e :: e in leaves && e.0 == k && ParseLeaf(e.1) == Ok(values[k]))
    && (forall k :: k in before ==> k in values)
  }

  ghost predicate SomeLeafFails(leaves: set<(string, Json)>) {
    exists e :: e in leaves && ParseLeaf(e.1).Err?
  }

  lemma FiledTwice(c: map<string, SignalKValue>, b: map<string, SignalKValue>, a: map<string, SignalKValue>,
                   l: set<(string, Json)>, m: set<(string, Json)>)
    requires Filed(b, a, l) && Filed(c, b, m)
    ensures Filed(c, a, l + m)
  {
    forall k | k in c
      ensures (k in a && c[k] == a[k] && forall e :: e in l + m ==> e.0 != k)
              || exists e :: e in l + m && e.0 == k && ParseLeaf(e.1) == Ok(c[k])
    {
      if e :| e in m && e.0 == k && ParseLeaf(e.1) == Ok(c[k]) {
        assert e in l + m;
      } else {
        assert k in b && c[k] == b[k];
        if e :| e in l && e.0 == k && ParseLeaf(e.1) == Ok(b[k]) {
          assert e in l + m;
        }
      }
    }
  }

  method FlattenInto(prefix: string, json: Json, before: map<string, SignalKValue>)
    returns (r: Result<map<string, SignalKValue>, string>)
    ensures r.Ok? ==> Filed(r.value, before, Leaves(prefix, json))
    ensures r.Err? ==> SomeLeafFails(Leaves(prefix, json))
    decreases json
  {
    if !json.Obj? {
      return Ok(before);
    }
    var f := json.fields;
    if Marked(f) {
      match ParseLeaf(json)
      case Err(e) =>
        assert (prefix, json) in Leaves(prefix, json);
        return Err(e);
      case Ok(v) =>
        assert (prefix, json) in Leaves(prefix, json);
        return Ok(before[prefix := v]);
    }
    var values, todo := before, f.Keys;
    while todo != {}
      invariant todo <= f.Keys
      invariant Filed(values, before, LeavesUnder(prefix, f, f.Keys - todo))
    {
      var key :| key in todo;
      ghost var leaves := Leaves(ChildPrefix(prefix, key), f[key]);
      assert leaves <= Leaves(prefix, json);
      r := FlattenInto(ChildPrefix(prefix, key), f[key], values);
      if r.Err? {
        return;
      }
      FiledTwice(r.value, values, before, LeavesUnder(prefix, f, f.Keys - todo), leaves);
      assert LeavesUnder(prefix, f, f.Keys - (todo - {key})) == LeavesUnder(prefix, f, f.Keys - todo) + leaves;
      values, todo := r.value, todo - {key};
    }
    assert LeavesUnder(prefix, f, f.Keys) == Leaves(prefix, json);
    r := Ok(values);
  }

  function StrAt(f: Fields, key: string): Option<string> {
    if key in f then AsStr(f[key]) else None
  }

  /** What a document may deserialize to: unique unless two values share a key. */
  ghost predicate Deserialized(raw: Fields, r: Result<VesselData, string>) {
    var leaves := LeavesUnder("", raw, raw.Keys - RESERVED);
    && (r.Ok? ==> Filed(r.value.values, map[], leaves)
                  && r.value.uuid == StrAt(raw, "uuid") && r.value.name == StrAt(raw, "name")
                  && r.value.mmsi == StrAt(raw, "mmsi"))
    && (r.Err? ==> SomeLeafFails(leaves))
  }

  lemma LeavesOneMore(raw: Fields, done: set<string>, key: string)
    requires key in raw
    ensures LeavesUnder("", raw, done + {key}) == LeavesUnder("", raw, done) + Leaves(ChildPrefix("", key), raw[key])
  {}

  lemma MoreLeavesFail(raw: Fields, key: string)
    requires key in raw.Keys - RESERVED && SomeLeafFails(Leaves(ChildPrefix("", key), raw[key]))
    ensures SomeLeafFails(LeavesUnder("", raw, raw.Keys - RESERVED))
  {
    LeavesOneMore(raw, raw.Keys - RESERVED, key);
    assert raw.Keys - RESERVED + {key} == raw.Keys - RESERVED;
  }

  /** One entry that is not reserved; `done` are those filed before. */
  method DeserializeEntry(raw: Fields, key: string, ghost done: set<string>, before: map<string, SignalKValue>)
    returns (r: Result<map<string, SignalKValue>, string>)
    requires key in raw.Keys - RESERVED && Filed(before, map[], LeavesUnder("", raw, done))
    ensures r.Ok? ==> Filed(r.value, map[], LeavesUnder("", raw, done + {key}))
    ensures r.Err? ==> SomeLeafFails(LeavesUnder("", raw, raw.Keys - RESERVED))
  {
    r := FlattenInto(key, raw[key], before);
    ghost var leaves := Leaves(ChildPrefix("", key), raw[key]);
    if r.Ok? {
      LeavesOneMore(raw, done, key);
      FiledTwice(r.value, before, map[], LeavesUnder("", raw, done), leaves);
    } else {
      MoreLeavesFail(raw, key);
    }
  }

  /** The identity fields whose keys are no longer in `todo` have been read. */
  predicate IdentityRead(v: VesselData, raw: Fields, todo: set<string>) {
    && v.uuid == (if "uuid" in todo then None else StrAt(raw, "uuid"))
    && v.name == (if "name" in todo then None else StrAt(raw, "name"))
    && v.mmsi == (if "mmsi" in todo then None else StrAt(raw, "mmsi"))
  }

  method ReadIdentity(raw: Fields, key: string, v: VesselData, ghost todo: set<string>) returns (w: VesselData)
    requires key in RESERVED && key in raw && key in todo && IdentityRead(v, raw, todo)
    ensures IdentityRead(w, raw, todo - {key}) && w.values == v.values
  {
    if key == "uuid" {
      w := v.(uuid := AsStr(raw[key]));
    } else if key == "name" {
      w := v.(name := AsStr(raw[key]));
    } else {
      w := v.(mmsi := AsStr(raw[key]));
    }
  }

  lemma OtherKeyRead(v: VesselData, raw: Fields, key: string, todo: set<string>, values: map<string, SignalKValue>)
    requires key !in RESERVED && IdentityRead(v, raw, todo)
    ensures IdentityRead(v.(values := values), raw, todo - {key})
  {}

  /** All entries but those in `todo` have been read. */
  ghost predicate PartlyRead(v: VesselData, raw: Fields, todo: set<string>) {
    IdentityRead(v, raw, todo) && Filed(v.values, map[], LeavesUnder("", raw, raw.Keys - RESERVED - todo))
  }

  method ReadEntry(raw: Fields, key: string, v: VesselData, ghost todo: set<string>) returns (r: Result<VesselData, string>)
    requires key in todo && todo <= raw.Keys && PartlyRead(v, raw, todo)
    ensures r.Ok? ==> PartlyRead(r.value, raw, todo - {key})
    ensures r.Err? ==> SomeLeafFails(LeavesUnder("", raw, raw.Keys - RESERVED))
  {
    ghost var done := raw.Keys - RESERVED - todo;
    if key in RESERVED {
      var w := ReadIdentity(raw, key, v, todo);
      assert raw.Keys - RESERVED - (todo - {key}) == done;
      r := Ok(w);
    } else {
      var flat := DeserializeEntry(raw, key, done, v.values);
      if flat.Err? {
        return Err(flat.error);
      }
      OtherKeyRead(v, raw, key, todo, flat.value);
      assert raw.Keys - RESERVED - (todo - {key}) == done + {key};
      r := Ok(v.(values := flat.value));
    }
  }

  lemma NothingRead(raw: Fields)
    ensures PartlyRead(VesselData(None, None, None, map[]), raw, raw.Keys)
  {
    assert raw.Keys - RESERVED - raw.Keys == {};
  }

  lemma AllRead(v: VesselData, raw: Fields)
    requires PartlyRead(v, raw, {})
    ensures Deserialized(raw, Ok(v))
  {
    assert raw.Keys - RESERVED - {} == raw.Keys - RESERVED;
  }

  method Deserialize(raw: Fields) returns (r: Result<VesselData, string>)
    ensures Deserialized(raw, r)
  {
    var vessel := VesselData(None, None, None, map[]);
    var todo := raw.Keys;
    NothingRead(raw);
    while todo != {}
      invariant todo <= raw.Keys && PartlyRead(vessel, raw, todo)
    {
      var key :| key in todo;
      var entry := ReadEntry(raw, key, vessel, todo);
      if entry.Err? {
        return Err(entry.error);
      }
      vessel := entry.value;
      todo := todo - {key};
    }
    AllRead(vessel, raw);
    r := Ok(vessel);
  }
}
