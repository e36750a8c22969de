/** Printing a vessel as a nested object and parsing it back: exactly when that
    restores the vessel, whatever the iteration order of the maps involved. */
module VesselRoundTrip {
  import opened Basics
  import opened JsonModel
  import opened Paths
  import opened FullModel

  type Values = map<string, SignalKValue>

  /** `p` is the segment list of a key of the flat map. */
  ghost predicate IsKey(values: Values, p: seq<string>) {
    p == Split(Join(p)) && Join(p) in values
  }

  /** The node `p` lies at or below the node `q`. */
  ghost predicate Below(p: seq<string>, q: seq<string>) {
    q <= p
  }

  /** The child `h` of node `q`. */
  function Child(q: seq<string>, h: string): seq<string> {
    q + [h]
  }

  /** Some key lies at or below the node `q`. */
  ghost predicate Extends(values: Values, q: seq<string>) {
    exists p :: IsKey(values, p) && Below(p, q)
  }

  /** The interior node `q` would carry all three marker fields of a value. */
  ghost predicate LooksLikeValue(values: Values, q: seq<string>) {
    Extends(values, Child(q, "value")) && Extends(values, Child(q, "$source")) && Extends(values, Child(q, "timestamp"))
  }

  ghost predicate PlainFirstSegments(values: Values) {
    forall k :: k in values ==> !("." <= k)
  }

  ghost predicate NoReservedSegment(values: Values) {
    forall k :: k in values ==> Split(k)[0] !in RESERVED
  }

  ghost predicate PrefixFree(values: Values) {
    forall p, q :: IsKey(values, p) && IsKey(values, q) && Below(q, p) ==> p == q
  }

  ghost predicate NoFalseValues(values: Values) {
    forall q :: q != [] ==> !LooksLikeValue(values, q)
  }

  /** The condition for a faithful round trip, a property of the keys alone. */
  ghost predicate Safe(values: Values) {
    PlainFirstSegments(values) && NoReservedSegment(values) && PrefixFree(values) && NoFalseValues(values)
  }

  // ----- keys and segment lists -----

  lemma KeySegments(values: Values, k: string)
    requires k in values
    ensures IsKey(values, Split(k)) && DotFree(Split(k)) && Join(Split(k)) == k
  {
    JoinOfSplit(k);
    SplitIsDotFree(k);
  }

  lemma BelowChild(p: seq<string>, q: seq<string>, h: string)
    ensures Below(p, Child(q, h)) <==> Below(p, q) && |q| < |p| && p[|q|] == h
  {
    if Below(p, Child(q, h)) {
      assert p[..|q|] == (Child(q, h))[..|q|] == q;
    }
  }

  lemma KeysAfterInsert(values: Values, k: string, v: SignalKValue, p: seq<string>)
    ensures IsKey(values[k := v], p) <==> IsKey(values, p) || p == Split(k)
  {
    JoinOfSplit(k);
  }

  lemma {:induction false} JoinAppend(q: seq<string>, h: string)
    requires q != []
    ensures Join(Child(q, h)) == Join(q) + "." + h
  {
    if |q| > 1 {
      JoinAppend(q[1..], h);
      assert Child(q, h)[1..] == Child(q[1..], h);
    }
  }

  // ----- printing: what the nested object contains -----

  /** Below node `q` the object holds exactly the keys below `q`, each at its place. */
  ghost predicate Represents(node: Json, values: Values, q: seq<string>)
    decreases node, 0
  {
    && node.Obj?
    && (forall h :: h in node.fields <==> Extends(values, Child(q, h)))
    && (forall h :: h in node.fields ==> Placed(node.fields[h], values, Child(q, h)))
  }

  /** A key's own value, or the object for the keys below. */
  ghost predicate Placed(node: Json, values: Values, q: seq<string>)
    decreases node, 1
  {
    if IsKey(values, q) then node == LeafJson(values[Join(q)]) else Represents(node, values, q)
  }

  /** A node only depends on the keys below it. */
  lemma {:induction false} RepresentsFrame(node: Json, a: Values, b: Values, q: seq<string>)
    requires Represents(node, a, q)
    requires forall p :: Below(p, q) ==> (IsKey(a, p) <==> IsKey(b, p)) && (IsKey(a, p) ==> a[Join(p)] == b[Join(p)])
    ensures Represents(node, b, q)
    decreases node
  {
    forall p, h ensures Below(p, Child(q, h)) ==> Below(p, q) {
      BelowChild(p, q, h);
    }
    forall h ensures Extends(a, Child(q, h)) <==> Extends(b, Child(q, h)) {
      if p :| IsKey(a, p) && Below(p, Child(q, h)) { assert IsKey(b, p); }
      if p :| IsKey(b, p) && Below(p, Child(q, h)) { assert IsKey(a, p); }
    }
    forall h | h in node.fields
      ensures Placed(node.fields[h], b, Child(q, h))
    {
      assert Below(Child(q, h), Child(q, h));
      if !IsKey(a, Child(q, h)) {
        RepresentsFrame(node.fields[h], a, b, Child(q, h));
      }
    }
  }

  /** The nested object is determined by the flat map. */
  lemma {:induction false} RepresentsUnique(m: Json, n: Json, values: Values, q: seq<string>)
    requires Represents(m, values, q) && Represents(n, values, q)
    ensures m == n
    decreases m
  {
    forall h ensures h in m.fields <==> h in n.fields {
      assert h in m.fields <==> Extends(values, Child(q, h));
    }
    forall h | h in m.fields ensures m.fields[h] == n.fields[h] {
      if !IsKey(values, Child(q, h)) {
        RepresentsUnique(m.fields[h], n.fields[h], values, Child(q, h));
      }
    }
    assert m.fields == n.fields;
  }

  /** A new key `k` makes one more child of each node it lies below. */
  lemma ChildrenAfterInsert(values: Values, q: seq<string>, k: string, v: SignalKValue, h: string)
    requires Below(Split(k), q) && |q| < |Split(k)|
    ensures Extends(values[k := v], Child(q, h)) <==> Extends(values, Child(q, h)) || h == Split(k)[|q|]
  {
    var all, p := values[k := v], Split(k);
    BelowChild(p, q, h);
    KeysAfterInsert(values, k, v, p);
    if p' :| IsKey(values, p') && Below(p', Child(q, h)) {
      KeysAfterInsert(values, k, v, p');
      assert IsKey(all, p');
    }
    if p' :| IsKey(all, p') && Below(p', Child(q, h)) {
      KeysAfterInsert(values, k, v, p');
    }
  }

  /** The children a new key does not lie below stay as they are. */
  lemma SiblingAfterInsert(child: Json, values: Values, q: seq<string>, k: string, v: SignalKValue, h: string)
    requires k !in values && Below(Split(k), q) && |q| < |Split(k)| && h != Split(k)[|q|]
    requires Placed(child, values, Child(q, h))
    ensures Placed(child, values[k := v], Child(q, h))
  {
    var all, p := values[k := v], Split(k);
    BelowChild(p, q, h);
    assert Below(Child(q, h), Child(q, h));
    forall p' | Below(p', Child(q, h))
      ensures (IsKey(values, p') <==> IsKey(all, p')) && (IsKey(values, p') ==> values[Join(p')] == all[Join(p')])
    {
      KeysAfterInsert(values, k, v, p');
      JoinOfSplit(k);
    }
    if !IsKey(values, Child(q, h)) {
      RepresentsFrame(child, values, all, Child(q, h));
    }
  }

  /** Replacing the child a new key lies below. */
  lemma ReplaceChild(f: Fields, child: Json, values: Values, q: seq<string>, k: string, v: SignalKValue)
    requires Represents(Obj(f), values, q) && k !in values && Below(Split(k), q) && |q| < |Split(k)|
    requires Placed(child, values[k := v], Child(q, Split(k)[|q|]))
    ensures Represents(Obj(f[Split(k)[|q|] := child]), values[k := v], q)
  {
    var h, g := Split(k)[|q|], f[Split(k)[|q|] := child];
    forall h' ensures h' in g <==> Extends(values[k := v], Child(q, h')) {
      ChildrenAfterInsert(values, q, k, v, h');
    }
    forall h' | h' in g ensures Placed(g[h'], values[k := v], Child(q, h')) {
      if h' != h {
        assert Placed(f[h'], values, Child(q, h'));
        SiblingAfterInsert(f[h'], values, q, k, v, h');
      }
    }
  }

  /** Inserting a key that is no prefix of, and has no prefix among, the others. */
  lemma {:induction false} InsertRepresents(f: Fields, values: Values, q: seq<string>, tail: seq<string>,
                                            k: string, v: SignalKValue)
    requires Represents(Obj(f), values, q) && tail != [] && Split(k) == q + tail && k !in values
    requires PrefixFree(values[k := v])
    ensures Represents(Obj(InsertNested(f, tail, LeafJson(v))), values[k := v], q)
    decreases |tail|
  {
    if |tail| == 1 {
      InsertLast(f, values, q, tail, k, v);
    } else {
      var nested := ChildObject(f, values, q, tail, k, v);
      assert Child(q, tail[0]) + tail[1..] == Split(k);
      InsertRepresents(nested, values, Child(q, tail[0]), tail[1..], k, v);
      InsertDeeper(f, nested, values, q, tail, k, v);
    }
  }

  lemma InsertLast(f: Fields, values: Values, q: seq<string>, tail: seq<string>, k: string, v: SignalKValue)
    requires Represents(Obj(f), values, q) && |tail| == 1 && Split(k) == q + tail && k !in values
    requires PrefixFree(values[k := v])
    ensures Represents(Obj(InsertNested(f, tail, LeafJson(v))), values[k := v], q)
  {
    assert Below(Split(k), q) && Split(k)[|q|] == tail[0];
    assert Child(q, tail[0]) == Split(k);
    KeysAfterInsert(values, k, v, Split(k));
    JoinOfSplit(k);
    ReplaceChild(f, LeafJson(v), values, q, k, v);
  }

  lemma InsertDeeper(f: Fields, nested: Fields, values: Values, q: seq<string>, tail: seq<string>, k: string, v: SignalKValue)
    requires Represents(Obj(f), values, q) && |tail| > 1 && Split(k) == q + tail && k !in values
    requires PrefixFree(values[k := v])
    requires Obj(nested) == if tail[0] in f then f[tail[0]] else Obj(map[])
    requires Represents(Obj(InsertNested(nested, tail[1..], LeafJson(v))), values[k := v], Child(q, tail[0]))
    ensures Represents(Obj(InsertNested(f, tail, LeafJson(v))), values[k := v], q)
  {
    var h := tail[0];
    assert Below(Split(k), q) && Split(k)[|q|] == h;
    BelowChild(Split(k), q, h);
    NotAKey(values, Child(q, h), k, v);
    ReplaceChild(f, Obj(InsertNested(nested, tail[1..], LeafJson(v))), values, q, k, v);
  }

  lemma NotAKey(values: Values, c: seq<string>, k: string, v: SignalKValue)
    requires PrefixFree(values[k := v]) && Below(Split(k), c) && |c| < |Split(k)|
    ensures !IsKey(values[k := v], c) && !IsKey(values, c)
  {
    KeysAfterInsert(values, k, v, c);
    KeysAfterInsert(values, k, v, Split(k));
  }

  /** The object an insertion descends into, created when missing. */
  lemma ChildObject(f: Fields, values: Values, q: seq<string>, tail: seq<string>, k: string, v: SignalKValue)
    returns (nested: Fields)
    requires Represents(Obj(f), values, q) && |tail| > 1 && Split(k) == q + tail
    requires PrefixFree(values[k := v])
    ensures Represents(Obj(nested), values, Child(q, tail[0]))
    ensures Obj(nested) == if tail[0] in f then f[tail[0]] else Obj(map[])
  {
    var h := tail[0];
    BelowChild(Split(k), q, h);
    assert Below(Split(k), q);
    NotAKey(values, Child(q, h), k, v);
    if h in f {
      assert Placed(f[h], values, Child(q, h));
      assert Represents(f[h], values, Child(q, h));
      nested := f[h].fields;
    } else {
      nested := map[];
      NothingBelow(values, Child(q, h));
    }
  }

  lemma NothingBelow(values: Values, c: seq<string>)
    requires !Extends(values, c)
    ensures Represents(Obj(map[]), values, c)
  {
    forall h ensures !Extends(values, Child(c, h)) {
      forall p ensures Below(p, Child(c, h)) ==> Below(p, c) {
        BelowChild(p, c, h);
      }
    }
  }

  function Restrict(values: Values, keys: seq<string>): Values {
    map k | k in values && k in keys :: values[k]
  }

  ghost predicate Distinct(order: seq<string>) {
    forall i, j :: 0 <= i < j < |order| ==> order[i] != order[j]
  }

  lemma SafeSubset(values: Values, keys: seq<string>)
    requires PrefixFree(values)
    ensures PrefixFree(Restrict(values, keys))
  {
    forall p | IsKey(Restrict(values, keys), p) ensures IsKey(values, p) {}
  }

  /** Whatever the order, the fields printed for the keys represent exactly those keys. */
  lemma {:induction false} InsertAllRepresents(values: Values, order: seq<string>)
    requires Distinct(order) && PrefixFree(values) && forall k :: k in order ==> k in values
    ensures Represents(Obj(InsertAll(map[], values, order)), Restrict(values, order), [])
  {
    if order != [] {
      var before, k := order[..|order| - 1], order[|order| - 1];
      assert forall k' :: k' in order <==> k' in before || k' == k;
      InsertAllRepresents(values, before);
      assert Restrict(values, order) == Restrict(values, before)[k := values[k]];
      SafeSubset(values, order);
      assert [] + Split(k) == Split(k);
      InsertRepresents(InsertAll(map[], values, before), Restrict(values, before), [], Split(k), k, values[k]);
    } else {
      assert Restrict(values, order) == map[];
    }
  }

  /** The identity fields and the nested keys do not meet. */
  lemma {:induction false} InsertAllBesideIdentity(v: VesselData, order: seq<string>)
    requires NoReservedSegment(v.values) && forall k :: k in order ==> k in v.values
    ensures var f := InsertAll(map[], v.values, order);
            f.Keys !! RESERVED && SerializedIn(v, order) == IdentityFields(v) + f
  {
    if order != [] {
      var before, k := order[..|order| - 1], order[|order| - 1];
      assert forall k' :: k' in before ==> k' in order;
      InsertAllBesideIdentity(v, before);
      InsertBeside(IdentityFields(v), InsertAll(map[], v.values, before), Split(k), LeafJson(v.values[k]));
    }
  }

  lemma InsertBeside(a: Fields, b: Fields, parts: seq<string>, value: Json)
    requires a.Keys <= RESERVED && b.Keys !! RESERVED && parts != [] && parts[0] !in RESERVED
    ensures InsertNested(a + b, parts, value) == a + InsertNested(b, parts, value)
    ensures InsertNested(b, parts, value).Keys !! RESERVED
  {}

  /** Main result: for keys meeting the condition, the nested object does not
      depend on the iteration order. */
  lemma PrintedOrderIndependent(v: VesselData, o1: seq<string>, o2: seq<string>)
    requires Safe(v.values) && IsOrder(o1, v.values.Keys) && IsOrder(o2, v.values.Keys)
    ensures SerializedIn(v, o1) == SerializedIn(v, o2)
  {
    NestedFieldsUnique(v.values, o1, o2);
    InsertAllBesideIdentity(v, o1);
    InsertAllBesideIdentity(v, o2);
  }

  lemma RestrictToAll(values: Values, order: seq<string>)
    requires IsOrder(order, values.Keys)
    ensures Restrict(values, order) == values
  {}

  lemma NestedFieldsUnique(values: Values, o1: seq<string>, o2: seq<string>)
    requires PrefixFree(values) && IsOrder(o1, values.Keys) && IsOrder(o2, values.Keys)
    ensures InsertAll(map[], values, o1) == InsertAll(map[], values, o2)
    ensures Represents(Obj(InsertAll(map[], values, o1)), values, [])
  {
    InsertAllRepresents(values, o1);
    InsertAllRepresents(values, o2);
    RestrictToAll(values, o1);
    RestrictToAll(values, o2);
    RepresentsUnique(Obj(InsertAll(map[], values, o1)), Obj(InsertAll(map[], values, o2)), values, []);
  }

  // ----- parsing what was printed, keys as required -----

  /** A value the parser finds for a key at or below node `q`. */
  ghost predicate FoundBelow(values: Values, q: seq<string>, e: (string, Json)) {
    exists p :: IsKey(values, p) && Below(p, q) && e == (Join(p), LeafJson(values[Join(p)]))
  }

  lemma FoundBelowChildren(values: Values, q: seq<string>, e: (string, Json))
    requires !IsKey(values, q)
    ensures FoundBelow(values, q, e) <==> exists h :: Extends(values, Child(q, h)) && FoundBelow(values, Child(q, h), e)
  {
    if p :| IsKey(values, p) && Below(p, q) && e == (Join(p), LeafJson(values[Join(p)])) {
      assert p != q && (|p| == |q| ==> p == q);
      BelowChild(p, q, p[|q|]);
      assert Extends(values, Child(q, p[|q|])) && FoundBelow(values, Child(q, p[|q|]), e);
    }
    if h :| FoundBelow(values, Child(q, h), e) {
      var p :| IsKey(values, p) && Below(p, Child(q, h)) && e == (Join(p), LeafJson(values[Join(p)]));
      BelowChild(p, q, h);
      assert Below(p, q);
    }
  }

  /** At a key the parser finds its value, at an interior node the keys below it. */
  lemma {:induction false} LeavesOfNode(node: Json, values: Values, q: seq<string>, e: (string, Json))
    requires NoFalseValues(values) && PrefixFree(values) && q != [] && (IsKey(values, q) || Join(q) != "")
    requires Placed(node, values, q)
    ensures e in Leaves(Join(q), node) <==> FoundBelow(values, q, e)
    decreases node
  {
    if IsKey(values, q) {
      LeavesOfKey(values, q, e);
    } else {
      var f := node.fields;
      assert !LooksLikeValue(values, q);
      assert !Marked(f);
      forall h | h in f
        ensures e in Leaves(ChildPrefix(Join(q), h), f[h]) <==> FoundBelow(values, Child(q, h), e)
      {
        JoinAppend(q, h);
        LeavesOfNode(f[h], values, Child(q, h), e);
      }
      FoundBelowChildren(values, q, e);
    }
  }

  lemma LeavesOfKey(values: Values, q: seq<string>, e: (string, Json))
    requires PrefixFree(values) && IsKey(values, q)
    ensures e in Leaves(Join(q), LeafJson(values[Join(q)])) <==> FoundBelow(values, q, e)
  {
    ParseOfLeaf(values[Join(q)]);
    assert Leaves(Join(q), LeafJson(values[Join(q)])) == {(Join(q), LeafJson(values[Join(q)]))};
    assert Below(q, q);
  }

  /** A path whose first segment is empty is the empty key or starts with a dot. */
  lemma JoinStart(p: seq<string>)
    requires p != []
    ensures |p| > 1 ==> p[0] + "." <= Join(p)
    ensures Join(p) == "" ==> p == [""]
    ensures |p| > 1 && p[0] == "" ==> "." <= Join(p)
  {
    if |p| > 1 {
      assert Join(p) == p[0] + "." + Join(p[1..]);
    }
  }

  /** A top-level child of the printed keys: the parser files what lies below it. */
  lemma TopLeaves(f: Fields, values: Values, h: string, e: (string, Json))
    requires Safe(values) && Represents(Obj(f), values, []) && h in f
    ensures e in Leaves(ChildPrefix("", h), f[h]) <==> FoundBelow(values, [h], e)
  {
    assert Child([], h) == [h] && Join([h]) == h;
    assert Placed(f[h], values, [h]);
    if h == "" {
      var p :| IsKey(values, p) && Below(p, [h]);
      JoinStart(p);
      assert |p| == 1;
    }
    LeavesOfNode(f[h], values, [h], e);
  }

  lemma FoundBelowTop(values: Values, e: (string, Json))
    ensures (exists h :: Extends(values, Child([], h)) && FoundBelow(values, [h], e))
       <==> e.0 in values && e.1 == LeafJson(values[e.0])
  {
    forall h ensures Child([], h) == [h] {}
    if e.0 in values && e.1 == LeafJson(values[e.0]) {
      KeySegments(values, e.0);
      var p := Split(e.0);
      assert Below(p, Child([], p[0]));
      assert Extends(values, Child([], p[0])) && FoundBelow(values, [p[0]], e);
    }
  }

  /** For keys meeting the condition the parser finds each key's value and nothing else. */
  lemma SafeLeaves(v: VesselData, order: seq<string>, e: (string, Json))
    requires Safe(v.values) && IsOrder(order, v.values.Keys)
    ensures var doc := SerializedIn(v, order);
            e in LeavesUnder("", doc, doc.Keys - RESERVED) <==> IsPrinted(v.values, e)
  {
    var doc, f := SerializedIn(v, order), InsertAll(map[], v.values, order);
    NestedFieldsUnique(v.values, order, order);
    InsertAllBesideIdentity(v, order);
    IdentityLookup(v);
    FoundBelowTop(v.values, e);
    forall h | h in f
      ensures h in doc && h !in RESERVED && doc[h] == f[h]
      ensures e in Leaves(ChildPrefix("", h), f[h]) <==> FoundBelow(v.values, [h], e)
    {
      TopLeaves(f, v.values, h, e);
    }
    assert forall h :: h in doc.Keys - RESERVED <==> h in f;
    assert forall h :: h in f <==> Extends(v.values, Child([], h));
  }

  /** A leaf is the printed form of the value at its key. */
  predicate IsPrinted(values: Values, e: (string, Json)) {
    e.0 in values && e.1 == LeafJson(values[e.0])
  }

  lemma PrintedParses(values: Values, e: (string, Json))
    requires IsPrinted(values, e)
    ensures ParseLeaf(e.1) == Ok(values[e.0])
  {
    ParseOfLeaf(values[e.0]);
  }

  lemma FiledAt(filed: Values, values: Values, leaves: set<(string, Json)>, k: string)
    requires forall e :: e in leaves ==> e.0 in values && ParseLeaf(e.1) == Ok(values[e.0])
    requires k in values ==> exists e :: e in leaves && e.0 == k
    requires Filed(filed, map[], leaves)
    ensures Get(filed, k) == Get(values, k)
  {}

  ghost predicate AllPrinted(values: Values, leaves: set<(string, Json)>) {
    forall e :: e in leaves <==> IsPrinted(values, e)
  }

  lemma FiledAtKey(filed: Values, values: Values, leaves: set<(string, Json)>, k: string)
    requires AllPrinted(values, leaves) && Filed(filed, map[], leaves)
    ensures Get(filed, k) == Get(values, k)
  {
    if k in values {
      assert IsPrinted(values, (k, LeafJson(values[k])));
    }
    forall e | e in leaves ensures e.0 in values && ParseLeaf(e.1) == Ok(values[e.0]) {
      PrintedParses(values, e);
    }
    FiledAt(filed, values, leaves, k);
  }

  lemma PrintedLeavesParse(values: Values, leaves: set<(string, Json)>)
    requires AllPrinted(values, leaves)
    ensures !SomeLeafFails(leaves)
  {
    forall e | e in leaves ensures ParseLeaf(e.1).Ok? {
      PrintedParses(values, e);
    }
  }

  /** Filing exactly one leaf per key, each the printed form of its value. */
  lemma FiledExactly(filed: Values, values: Values, leaves: set<(string, Json)>)
    requires AllPrinted(values, leaves) && Filed(filed, map[], leaves)
    ensures filed == values
  {
    forall k ensures Get(filed, k) == Get(values, k) {
      FiledAtKey(filed, values, leaves, k);
    }
    SameMaps(filed, values);
  }

  lemma SafeRoundTrips(v: VesselData, order: seq<string>, r: Result<VesselData, string>)
    requires Safe(v.values) && IsOrder(order, v.values.Keys)
    requires Deserialized(SerializedIn(v, order), r)
    ensures r == Ok(v)
  {
    var doc := SerializedIn(v, order);
    var leaves := LeavesUnder("", doc, doc.Keys - RESERVED);
    forall e ensures e in leaves <==> IsPrinted(v.values, e) {
      SafeLeaves(v, order, e);
    }
    PrintedLeavesParse(v.values, leaves);
    FiledExactly(r.value.values, v.values, leaves);
    InsertAllBesideIdentity(v, order);
    IdentityLookup(v);
  }

  lemma IdentityLookup(v: VesselData)
    ensures var f := IdentityFields(v);
            StrAt(f, "uuid") == v.uuid && StrAt(f, "name") == v.name && StrAt(f, "mmsi") == v.mmsi
    ensures IdentityFields(v).Keys <= RESERVED
  {
    assert "uuid"[0] == 'u' && "name"[0] == 'n' && "mmsi"[0] == 'm';
  }

  // ----- parsing what was printed, other keys -----

  /** Nodes the parser descends into have dot-free names and are objects. */
  ghost predicate Clean(node: Json)
    decreases node
  {
    node.Obj? && (Marked(node.fields) || forall h :: h in node.fields ==> '.' !in h && Clean(node.fields[h]))
  }

  /** Following `p` downwards meets a node the parser takes for a value. */
  ghost predicate Covered(node: Json, p: seq<string>)
    decreases |p|
  {
    node.Obj? && p != [] && p[0] in node.fields
    && node.fields[p[0]].Obj? && (Marked(node.fields[p[0]].fields) || Covered(node.fields[p[0]], p[1..]))
  }

  lemma {:induction false} InsertCovers(f: Fields, p: seq<string>, leaf: Fields)
    requires forall h :: h in f ==> '.' !in h && Clean(f[h])
    requires p != [] && DotFree(p) && Marked(leaf)
    ensures var g := InsertNested(f, p, Obj(leaf));
            && (forall h :: h in g ==> '.' !in h && Clean(g[h]))
            && Covered(Obj(g), p)
    decreases |p|
  {
    if |p| > 1 {
      var nested: Fields := if p[0] in f then f[p[0]].fields else map[];
      var child := InsertNested(nested, p[1..], Obj(leaf));
      if !Marked(nested) {
        InsertCovers(nested, p[1..], leaf);
      }
      assert Clean(Obj(child));
    }
  }

  lemma {:induction false} InsertKeepsCovered(f: Fields, p: seq<string>, leaf: Fields, q: seq<string>)
    requires Covered(Obj(f), q) && Marked(leaf)
    ensures Covered(Obj(InsertNested(f, p, Obj(leaf))), q)
    decreases |p|
  {
    if |p| > 1 && p[0] == q[0] {
      var nested := f[p[0]].fields;
      if !Marked(nested) {
        InsertKeepsCovered(nested, p[1..], leaf, q[1..]);
      }
    }
  }

  /** What the parser files below a node is filed under the node's own name or deeper. */
  lemma {:induction false} LeavesStart(prefix: string, node: Json, e: (string, Json))
    requires Clean(node) && e in Leaves(prefix, node)
    ensures prefix != "" ==> e.0 == prefix || prefix + "." <= e.0
    ensures prefix == "" ==> !("." <= e.0)
    decreases node
  {
    if !Marked(node.fields) {
      var h :| h in node.fields && e in Leaves(ChildPrefix(prefix, h), node.fields[h]);
      LeavesStart(ChildPrefix(prefix, h), node.fields[h], e);
      var c := ChildPrefix(prefix, h);
      assert c != "" && c + "." <= e.0 ==> c <= e.0;
      if prefix == "" && h != "" {
        assert e.0[0] == h[0];
      }
    }
  }

  /** Two dot-free segments that start the same text up to a dot are the same. */
  lemma SegmentStart(a: string, b: string, t: string)
    requires '.' !in a && '.' !in b && a + "." <= t && b + "." <= t
    ensures a == b
  {
    assert t[|a|] == (a + ".")[|a|] == '.' && t[|b|] == (b + ".")[|b|] == '.';
    assert a == t[..|a|] && b == t[..|b|];
  }

  lemma JoinCons(p: seq<string>)
    requires |p| > 1
    ensures Join(p) == p[0] + "." + Join(p[1..]) && p[0] + "." <= Join(p) && '.' in Join(p)
  {
    assert Join(p)[|p[0]|] == '.';
  }

  /** Below the child that a key's text continues with, or nowhere. */
  lemma TextPicksChild(h: string, p: seq<string>, rest: string)
    requires '.' !in h && DotFree(p) && |p| > 1 && rest == Join(p)
    requires rest == h || h + "." <= rest
    ensures h == p[0]
  {
    JoinCons(p);
    if h + "." <= rest {
      SegmentStart(h, p[0], rest);
    }
  }

  lemma StripPrefix(c: string, h: string, text: string, rest: string)
    requires text == c + "." + rest
    requires text == c + "." + h || c + "." + h + "." <= text
    ensures rest == h || h + "." <= rest
  {
    assert text[|c| + 1..] == rest;
    if text == c + "." + h {
      assert text[|c| + 1..] == h;
    } else {
      var start := c + "." + h + ".";
      assert start[|c| + 1..] == h + ".";
      assert text[..|start|][|c| + 1..] == h + ".";
      assert rest[..|h| + 1] == h + ".";
    }
  }

  lemma Regroup(c: string, h: string, x: string)
    ensures c + "." + (h + "." + x) == (c + "." + h) + "." + x
  {}

  /** A path strictly below a covered node is not found. */
  lemma {:induction false} CoveredHides(c: string, node: Json, n: seq<string>, p: seq<string>, e: (string, Json))
    requires Clean(node) && c != "" && e in Leaves(c, node)
    requires Marked(node.fields) || Covered(node, n)
    requires Below(p, n) && |n| < |p| && DotFree(p)
    ensures e.0 != c + "." + Join(p)
    decreases |p|
  {
    if !Marked(node.fields) && e.0 == c + "." + Join(p) {
      var f := node.fields;
      var h :| h in f && e in Leaves(ChildPrefix(c, h), f[h]);
      var d := c + "." + h;
      LeavesStart(d, f[h], e);
      StripPrefix(c, h, e.0, Join(p));
      TextPicksChild(h, p, Join(p));
      JoinCons(p);
      Regroup(c, h, Join(p[1..]));
      CoveredHides(d, f[h], n[1..], p[1..], e);
    }
  }

  /** What holds of the fields outside the identity after inserting the keys of `order`. */
  ghost predicate Built(f: Fields, values: Values, order: seq<string>) {
    && (forall h :: h in f ==> h !in RESERVED && '.' !in h && Clean(f[h]))
    && (forall k :: k in order && Split(k)[0] !in RESERVED ==> Covered(Obj(f), Split(k)))
    && (PlainFirstSegments(values) && "" in f ==> Marked(f[""].fields))
  }

  lemma BuiltStep(f: Fields, values: Values, order: seq<string>, k: string)
    requires Built(f, values, order) && k in values && Split(k)[0] !in RESERVED
    ensures Built(InsertNested(f, Split(k), LeafJson(values[k])), values, order + [k])
  {
    var p, leaf := Split(k), LeafFields(values[k]);
    var g := InsertNested(f, p, Obj(leaf));
    ParseOfLeaf(values[k]);
    KeySegments(values, k);
    InsertCovers(f, p, leaf);
    forall k' | k' in order && Split(k')[0] !in RESERVED ensures Covered(Obj(g), Split(k')) {
      InsertKeepsCovered(f, p, leaf, Split(k'));
    }
    if PlainFirstSegments(values) && p[0] == "" {
      JoinStart(p);
    }
    assert forall h :: h in g && h != p[0] ==> h in f && g[h] == f[h];
  }

  lemma InsertReserved(doc: Fields, parts: seq<string>, value: Json)
    requires parts != []
    ensures parts[0] in RESERVED ==> InsertNested(doc, parts, value) - RESERVED == doc - RESERVED
    ensures parts[0] !in RESERVED
        ==> InsertNested(doc, parts, value) - RESERVED == InsertNested(doc - RESERVED, parts, value)
  {}

  lemma {:induction false} AlwaysBuilt(v: VesselData, order: seq<string>)
    requires forall k :: k in order ==> k in v.values
    ensures Built(SerializedIn(v, order) - RESERVED, v.values, order)
  {
    if order == [] {
      IdentityLookup(v);
      assert SerializedIn(v, order) - RESERVED == map[];
    } else {
      var before, k := order[..|order| - 1], order[|order| - 1];
      assert order == before + [k];
      AlwaysBuilt(v, before);
      InsertReserved(SerializedIn(v, before), Split(k), LeafJson(v.values[k]));
      if Split(k)[0] !in RESERVED {
        BuiltStep(SerializedIn(v, before) - RESERVED, v.values, before, k);
      }
    }
  }

  /** The flat keys the parser can file, given the printed document. */
  ghost predicate Found(doc: Fields, k: string) {
    exists e :: e in LeavesUnder("", doc, doc.Keys - RESERVED) && e.0 == k
  }

  lemma FoundIn(doc: Fields, k: string) returns (h: string, e: (string, Json))
    requires Found(doc, k)
    ensures h in doc - RESERVED && e in Leaves(h, doc[h]) && e.0 == k
  {
    e :| e in LeavesUnder("", doc, doc.Keys - RESERVED) && e.0 == k;
    h :| h in doc && h in doc.Keys - RESERVED && e in Leaves(ChildPrefix("", h), doc[h]);
  }

  lemma DottedNotFound(v: VesselData, order: seq<string>, k: string)
    requires (forall k :: k in order ==> k in v.values) && "." <= k
    ensures !Found(SerializedIn(v, order), k)
  {
    var doc := SerializedIn(v, order);
    AlwaysBuilt(v, order);
    if Found(doc, k) {
      var h, e := FoundIn(doc, k);
      StartIsPlain(h, (doc - RESERVED)[h], e);
    }
  }

  lemma StartIsPlain(h: string, node: Json, e: (string, Json))
    requires '.' !in h && Clean(node) && e in Leaves(h, node)
    ensures !("." <= e.0)
  {
    LeavesStart(h, node, e);
    if h != "" {
      assert h <= e.0 && h[0] in h;
    }
  }

  lemma ReservedNotFound(v: VesselData, order: seq<string>, k: string)
    requires (forall k :: k in order ==> k in v.values) && PlainFirstSegments(v.values)
    requires Split(k)[0] in RESERVED
    ensures !Found(SerializedIn(v, order), k)
  {
    var doc := SerializedIn(v, order);
    AlwaysBuilt(v, order);
    if Found(doc, k) {
      var h, e := FoundIn(doc, k);
      LeavesStart(h, (doc - RESERVED)[h], e);
      if k == h {
        SplitOfSegment(h);
      } else {
        assert h != "";
        assert k == h + "." + k[|h| + 1..];
        SplitAtDot(h, k[|h| + 1..]);
      }
    }
  }

  lemma HiddenNotFound(v: VesselData, order: seq<string>, n: seq<string>, k: string)
    requires (forall k :: k in order ==> k in v.values) && PlainFirstSegments(v.values)
    requires Covered(Obj(SerializedIn(v, order) - RESERVED), n) && Below(Split(k), n) && |n| < |Split(k)|
    ensures !Found(SerializedIn(v, order), k)
  {
    var doc, p := SerializedIn(v, order), Split(k);
    AlwaysBuilt(v, order);
    SplitIsDotFree(k);
    JoinOfSplit(k);
    if Found(doc, k) {
      var h, e := FoundIn(doc, k);
      var f := doc - RESERVED;
      LeavesStart(h, f[h], e);
      JoinCons(p);
      assert h != "";
      TextPicksChild(h, p, k);
      CoveredHides(h, f[h], n[1..], p[1..], e);
    }
  }

  /** A node all three marker children of which are covered is itself covered. */
  lemma {:induction false} MarkersCover(node: Json, n: seq<string>, a: seq<string>, b: seq<string>, c: seq<string>)
    requires n != [] && Covered(node, a) && Covered(node, b) && Covered(node, c)
    requires Below(a, Child(n, "value")) && Below(b, Child(n, "$source")) && Below(c, Child(n, "timestamp"))
    ensures Covered(node, n)
    decreases |n|
  {
    BelowChild(a, n, "value");
    BelowChild(b, n, "$source");
    BelowChild(c, n, "timestamp");
    var child := node.fields[n[0]];
    if !Marked(child.fields) {
      if |n| > 1 {
        assert Child(n[1..], "value") == Child(n, "value")[1..];
        assert Child(n[1..], "$source") == Child(n, "$source")[1..];
        assert Child(n[1..], "timestamp") == Child(n, "timestamp")[1..];
        MarkersCover(child, n[1..], a[1..], b[1..], c[1..]);
      }
    }
  }

  /** Keys violating the condition lose at least one of them, in every order. */
  lemma UnsafeLosesKey(v: VesselData, order: seq<string>) returns (k: string)
    requires !Safe(v.values) && IsOrder(order, v.values.Keys)
    ensures k in v.values && !Found(SerializedIn(v, order), k)
  {
    var values := v.values;
    AlwaysBuilt(v, order);
    var root := Obj(SerializedIn(v, order) - RESERVED);
    if !PlainFirstSegments(values) {
      k :| k in values && "." <= k;
      DottedNotFound(v, order, k);
    } else if !NoReservedSegment(values) {
      k :| k in values && Split(k)[0] in RESERVED;
      ReservedNotFound(v, order, k);
    } else if !PrefixFree(values) {
      var p, q :| IsKey(values, p) && IsKey(values, q) && Below(q, p) && p != q;
      k := Join(q);
      assert |p| < |q| by { assert |p| == |q| ==> p == q; }
      assert Join(p) in order;
      HiddenNotFound(v, order, p, k);
    } else {
      var n :| n != [] && LooksLikeValue(values, n);
      var a :| IsKey(values, a) && Below(a, Child(n, "value"));
      var b :| IsKey(values, b) && Below(b, Child(n, "$source"));
      var c :| IsKey(values, c) && Below(c, Child(n, "timestamp"));
      assert Join(a) in order && Join(b) in order && Join(c) in order;
      MarkersCover(root, n, a, b, c);
      BelowChild(a, n, "value");
      k := Join(a);
      HiddenNotFound(v, order, n, k);
    }
  }

  /** Main result: for every iteration order of every map involved, parsing the
      printed vessel restores it exactly when the keys meet the condition. */
  lemma RoundTripIffSafe(v: VesselData, order: seq<string>, r: Result<VesselData, string>)
    requires IsOrder(order, v.values.Keys) && Deserialized(SerializedIn(v, order), r)
    ensures r == Ok(v) <==> Safe(v.values)
  {
    if Safe(v.values) {
      SafeRoundTrips(v, order, r);
    } else {
      var k := UnsafeLosesKey(v, order);
      if r == Ok(v) {
        assert k in r.value.values;
        assert Found(SerializedIn(v, order), k);
      }
    }
  }

  /** The empty key is harmless, although its first segment is empty. */
  lemma EmptyKeyIsSafe(x: SignalKValue)
    ensures Safe(map["" := x])
  {
    var values := map["" := x];
    forall p | IsKey(values, p) ensures p == [""] {}
    assert Split("") == [""];
    forall q | q != [] ensures !Extends(values, Child(q, "value")) {
      if p :| IsKey(values, p) && Below(p, Child(q, "value")) {
        BelowChild(p, q, "value");
      }
    }
  }
}
