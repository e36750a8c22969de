/** The two-level `sources` object of the full data model
    (crates/signalk-store/src/store.rs, `build_sources_hierarchy`). */
module SourcesHierarchy {
  import opened Basics
  import opened JsonModel

  /** A source serialises to an object; this is its list of fields. */
  type Fields = map<string, Json>

  /** The position of the first dot. */
  function FindDot(s: string): Option<nat> {
    if s == "" then None
    else if s[0] == '.' then Some(0)
    else
      var rest := FindDot(s[1..]);
      if rest.None? then None else Some(rest.value + 1)
  }

  lemma {:induction false} FindDotFindsFirst(s: string)
    ensures match FindDot(s)
            case Some(i) => i < |s| && s[i] == '.' && '.' !in s[..i]
            case None => '.' !in s
  {
    if s != "" && s[0] != '.' {
      FindDotFindsFirst(s[1..]);
      assert s == [s[0]] + s[1..];
      if FindDot(s[1..]).Some? {
        var i := FindDot(s[1..]).value;
        assert s[..i + 1] == [s[0]] + s[1..][..i];
      }
    }
  }

  /** A reference is flat, or a label with a suffix. */
  datatype Place = Flat(owner: string) | Nested(owner: string, suffix: string)

  function PlaceOf(ref: string): Place {
    FindDotFindsFirst(ref);
    match FindDot(ref)
    case Some(i) => Nested(ref[..i], ref[i + 1..])
    case None => Flat(ref)
  }

  function RefOf(p: Place): string {
    if p.Flat? then p.owner else p.owner + "." + p.suffix
  }

  lemma PlaceDeterminesRef(ref: string)
    ensures RefOf(PlaceOf(ref)) == ref
  {
    FindDotFindsFirst(ref);
    if FindDot(ref).Some? {
      var i := FindDot(ref).value;
      assert ref == ref[..i] + "." + ref[i + 1..];
    }
  }

  /** The registry, with every reference split into its place. */
  function Placed(sources: map<string, Fields>): map<Place, Fields> {
    map p | p in (set ref | ref in sources :: PlaceOf(ref)) && RefOf(p) in sources :: sources[RefOf(p)]
  }

  lemma PlacedAt(sources: map<string, Fields>, ref: string)
    requires ref in sources
    ensures PlaceOf(ref) in Placed(sources) && Placed(sources)[PlaceOf(ref)] == sources[ref]
  {
    PlaceDeterminesRef(ref);
  }

  // ----- building -----

  function Insert(root: Fields, p: Place, source: Fields): Fields {
    match p
    case Flat(name) => root[name := Obj(source)]
    case Nested(name, suffix) =>
      var entry := if name in root then root[name] else Obj(map[]);
      if entry.Obj? then root[name := Obj(entry.fields[suffix := Obj(source)])] else root
  }

  /** The object after the first `n` entries of an iteration over the registry. */
  function Build(registry: map<Place, Fields>, order: seq<Place>, n: nat): Fields
    requires n <= |order|
  {
    if n == 0 then map[]
    else if order[n - 1] !in registry then Build(registry, order, n - 1)
    else Insert(Build(registry, order, n - 1), order[n - 1], registry[order[n - 1]])
  }

  function Places(order: seq<string>): seq<Place> {
    seq(|order|, i requires 0 <= i < |order| => PlaceOf(order[i]))
  }

  /** An iteration over the references is one over their places. */
  lemma PlacesInRegistry(sources: map<string, Fields>, order: seq<string>)
    requires IsOrder(order, sources.Keys)
    ensures IsOrder(Places(order), Placed(sources).Keys)
  {
    forall i | 0 <= i < |order| ensures Places(order)[i] in Placed(sources) {
      assert order[i] in sources;
      PlacedAt(sources, order[i]);
    }
    forall p | p in Placed(sources) ensures p in Places(order) {
      var ref :| ref in sources && PlaceOf(ref) == p;
      var i :| 0 <= i < |order| && order[i] == ref;
      assert Places(order)[i] == p;
    }
    forall i, j | 0 <= i < j < |order| ensures Places(order)[i] != Places(order)[j] {
      PlaceDeterminesRef(order[i]);
      PlaceDeterminesRef(order[j]);
    }
  }

  lemma BuildOneMore(sources: map<string, Fields>, order: seq<string>, i: nat)
    requires i < |order| && order[i] in sources
    ensures Build(Placed(sources), Places(order), i + 1)
         == Insert(Build(Placed(sources), Places(order), i), PlaceOf(order[i]), sources[order[i]])
  {
    PlacedAt(sources, order[i]);
  }

  method BuildSourcesHierarchy(sources: map<string, Fields>, order: seq<string>) returns (root: Fields)
    requires IsOrder(order, sources.Keys)
    ensures root == BuildRefs(sources, order)
  {
    root := map[];
    for i := 0 to |order|
      invariant root == Build(Placed(sources), Places(order), i)
    {
      BuildOneMore(sources, order, i);
      root := AddSource(root, order[i], sources[order[i]]);
    }
  }

  method AddSource(root: Fields, ref: string, source: Fields) returns (next: Fields)
    ensures next == Insert(root, PlaceOf(ref), source)
  {
    next := root;
    match PlaceOf(ref) {
      case Nested(name, suffix) =>
        var entry := if name in root then root[name] else Obj(map[]);
        if entry.Obj? {
          next := root[name := Obj(entry.fields[suffix := Obj(source)])];
        }
      case Flat(name) =>
        next := root[name := Obj(source)];
    }
  }

  // ----- the object meant -----

  /** What the object holds under a label and a suffix. */
  function Under(root: Fields, name: string, suffix: string): Option<Json> {
    if name in root && root[name].Obj? then Get(root[name].fields, suffix) else None
  }

  function Registered(m: map<Place, Fields>, p: Place): Option<Json> {
    if p in m then Some(Obj(m[p])) else None
  }

  /** The object holds the source of the very name, or else exactly the sources nested
      under it; a name without sources does not occur. */
  predicate HoldsAt(root: Fields, m: map<Place, Fields>, name: string, suffix: string) {
    if Flat(name) in m then Get(root, name) == Registered(m, Flat(name))
    else
      && Under(root, name, suffix) == Registered(m, Nested(name, suffix))
      && (name in root ==> root[name].Obj? && |root[name].fields| > 0)
  }

  ghost predicate Holds(root: Fields, m: map<Place, Fields>) {
    forall name, suffix :: HoldsAt(root, m, name, suffix)
  }

  /** A nested source does not disagree with a source that is named like its label.
      Two such sources normally differ, so there should be no such pair. */
  predicate Agrees(m: map<Place, Fields>, p: Place) {
    p in m && p.Nested? && Flat(p.owner) in m ==> Get(m[Flat(p.owner)], p.suffix) == Some(Obj(m[p]))
  }

  ghost predicate Compatible(m: map<Place, Fields>) {
    forall p :: Agrees(m, p)
  }

  /** There is only one such object. */
  lemma HoldsUnique(a: Fields, b: Fields, m: map<Place, Fields>)
    requires Holds(a, m) && Holds(b, m)
    ensures a == b
  {
    forall name ensures Get(a, name) == Get(b, name) {
      HoldsIncluded(a, b, m, name);
      HoldsIncluded(b, a, m, name);
      if name in a && Flat(name) !in m {
        forall suffix ensures Get(a[name].fields, suffix) == Get(b[name].fields, suffix) {
          assert HoldsAt(a, m, name, suffix) && HoldsAt(b, m, name, suffix);
        }
        SameMaps(a[name].fields, b[name].fields);
      }
    }
    SameMaps(a, b);
  }

  lemma HoldsIncluded(a: Fields, b: Fields, m: map<Place, Fields>, name: string)
    requires Holds(a, m) && Holds(b, m)
    ensures name in a ==> name in b && (if Flat(name) in m then a[name] == b[name] else a[name].Obj? && b[name].Obj?)
  {
    assert HoldsAt(a, m, name, "") && HoldsAt(b, m, name, "");
    if name in a && Flat(name) !in m {
      var suffix :| suffix in a[name].fields;
      assert HoldsAt(a, m, name, suffix) && HoldsAt(b, m, name, suffix);
    }
  }

  lemma InsertHoldsAt(root: Fields, m: map<Place, Fields>, p: Place, source: Fields, name: string, suffix: string)
    requires p !in m && HoldsAt(root, m, name, suffix) && Agrees(m[p := source], p)
    ensures HoldsAt(Insert(root, p, source), m[p := source], name, suffix)
  {
    if p.Nested? && p.owner == name && Flat(name) in m {
      var fields := m[Flat(name)];
      assert Get(fields, p.suffix) == Some(Obj(source));
      assert fields[p.suffix := Obj(source)] == fields;
    }
  }

  // ----- any order -----

  function Part(registry: map<Place, Fields>, order: seq<Place>, n: nat): map<Place, Fields>
    requires n <= |order|
  {
    map p | p in order[..n] && p in registry :: registry[p]
  }

  lemma PartOfMore(registry: map<Place, Fields>, order: seq<Place>, n: nat)
    requires IsOrder(order, registry.Keys) && n < |order|
    ensures order[n] in registry && order[n] !in Part(registry, order, n)
    ensures Part(registry, order, n + 1) == Part(registry, order, n)[order[n] := registry[order[n]]]
  {
    assert order[..n + 1] == order[..n] + [order[n]];
  }

  lemma WholePart(registry: map<Place, Fields>, order: seq<Place>)
    requires IsOrder(order, registry.Keys)
    ensures Part(registry, order, |order|) == registry
  {
    assert order[..|order|] == order;
  }

  lemma PartAgrees(registry: map<Place, Fields>, m: map<Place, Fields>, p: Place)
    requires p in registry && Agrees(registry, p) && (forall q <- m :: q in registry && m[q] == registry[q])
    ensures Agrees(m[p := registry[p]], p)
  {}

  lemma NextHoldsAt(registry: map<Place, Fields>, order: seq<Place>, n: nat, root: Fields, name: string, suffix: string)
    requires IsOrder(order, registry.Keys) && n < |order| && Compatible(registry)
    requires HoldsAt(root, Part(registry, order, n), name, suffix)
    ensures order[n] in registry
    ensures HoldsAt(Insert(root, order[n], registry[order[n]]), Part(registry, order, n + 1), name, suffix)
  {
    PartOfMore(registry, order, n);
    var m, p := Part(registry, order, n), order[n];
    assert Agrees(registry, p);
    PartAgrees(registry, m, p);
    InsertHoldsAt(root, m, p, registry[p], name, suffix);
  }

  lemma {:induction false} BuildHoldsAt(registry: map<Place, Fields>, order: seq<Place>, n: nat, name: string, suffix: string)
    requires IsOrder(order, registry.Keys) && n <= |order| && Compatible(registry)
    ensures HoldsAt(Build(registry, order, n), Part(registry, order, n), name, suffix)
  {
    if n > 0 {
      BuildHoldsAt(registry, order, n - 1, name, suffix);
      NextHoldsAt(registry, order, n - 1, Build(registry, order, n - 1), name, suffix);
    }
  }

  /** Compatible sources give the object meant, whatever the iteration order. */
  lemma BuildsWhatIsMeant(registry: map<Place, Fields>, order: seq<Place>)
    requires IsOrder(order, registry.Keys) && Compatible(registry)
    ensures Holds(Build(registry, order, |order|), registry)
  {
    WholePart(registry, order);
    forall name, suffix ensures HoldsAt(Build(registry, order, |order|), registry, name, suffix) {
      BuildHoldsAt(registry, order, |order|, name, suffix);
    }
  }

  /** Every set has an iteration order that ends in a given element. */
  lemma {:induction false} OrderEndingIn(s: set<Place>, last: Place) returns (order: seq<Place>)
    requires last in s
    ensures IsOrder(order, s) && order != [] && order[|order| - 1] == last
    decreases s
  {
    if s == {last} {
      order := [last];
    } else {
      assert s == {last} + (s - {last});
      var other :| other in s - {last};
      var rest := OrderEndingIn(s - {other}, last);
      order := [other] + rest;
    }
  }

  lemma BuildEndingIn(registry: map<Place, Fields>, order: seq<Place>, p: Place)
    requires IsOrder(order, registry.Keys) && order != [] && order[|order| - 1] == p
    ensures Build(registry, order, |order|) == Insert(Build(registry, order, |order| - 1), p, registry[p])
  {}

  lemma {:induction false} OnlyObjects(registry: map<Place, Fields>, order: seq<Place>, n: nat, name: string)
    requires n <= |order|
    ensures name in Build(registry, order, n) ==> Build(registry, order, n)[name].Obj?
  {
    if n > 0 {
      OnlyObjects(registry, order, n - 1, name);
    }
  }

  ghost predicate OrderIndependent(registry: map<Place, Fields>) {
    forall o1, o2 :: IsOrder(o1, registry.Keys) && IsOrder(o2, registry.Keys) ==>
      Build(registry, o1, |o1|) == Build(registry, o2, |o2|)
  }

  /** On places: the object does not depend on the iteration order of the registry
      exactly when no nested source disagrees with a source named like its label. */
  lemma OrderIndependentIffCompatible(registry: map<Place, Fields>)
    ensures OrderIndependent(registry) <==> Compatible(registry)
  {
    if Compatible(registry) {
      forall o1, o2 | IsOrder(o1, registry.Keys) && IsOrder(o2, registry.Keys)
        ensures Build(registry, o1, |o1|) == Build(registry, o2, |o2|) {
        BuildsWhatIsMeant(registry, o1);
        BuildsWhatIsMeant(registry, o2);
        HoldsUnique(Build(registry, o1, |o1|), Build(registry, o2, |o2|), registry);
      }
    } else {
      var p :| !Agrees(registry, p);
      var o1 := OrderEndingIn(registry.Keys, p);
      var o2 := OrderEndingIn(registry.Keys, Flat(p.owner));
      BuildEndingIn(registry, o1, p);
      BuildEndingIn(registry, o2, Flat(p.owner));
      OnlyObjects(registry, o1, |o1| - 1, p.owner);
      var a, b := Build(registry, o1, |o1|), Build(registry, o2, |o2|);
      assert Get(a[p.owner].fields, p.suffix) == Some(Obj(registry[p]));
      assert b[p.owner].fields == registry[Flat(p.owner)];
    }
  }

  // ----- back to references -----

  function Refs(places: seq<Place>): seq<string> {
    seq(|places|, i requires 0 <= i < |places| => RefOf(places[i]))
  }

  lemma PlacedComesFromRef(sources: map<string, Fields>, p: Place)
    requires p in Placed(sources)
    ensures RefOf(p) in sources && PlaceOf(RefOf(p)) == p
  {
    var ref :| ref in sources && PlaceOf(ref) == p;
    PlaceDeterminesRef(ref);
  }

  /** Every iteration over the places comes from one over the references. */
  lemma PlacesFromRefs(sources: map<string, Fields>, places: seq<Place>)
    requires IsOrder(places, Placed(sources).Keys)
    ensures IsOrder(Refs(places), sources.Keys) && Places(Refs(places)) == places
  {
    var refs := Refs(places);
    forall i | 0 <= i < |places| ensures refs[i] in sources && PlaceOf(refs[i]) == places[i] {
      assert places[i] in Placed(sources);
      PlacedComesFromRef(sources, places[i]);
    }
    forall ref | ref in sources ensures ref in refs {
      PlacedAt(sources, ref);
      var i :| 0 <= i < |places| && places[i] == PlaceOf(ref);
      PlaceDeterminesRef(ref);
      assert refs[i] == ref;
    }
    assert Places(refs) == places;
  }

  /** The object built in one iteration over the registry. */
  function BuildRefs(sources: map<string, Fields>, order: seq<string>): Fields {
    Build(Placed(sources), Places(order), |order|)
  }

  ghost predicate RefOrderIndependent(sources: map<string, Fields>) {
    forall o1, o2 :: IsOrder(o1, sources.Keys) && IsOrder(o2, sources.Keys) ==> BuildRefs(sources, o1) == BuildRefs(sources, o2)
  }

  /** A nested source agrees with the source named like its label, if there is one. */
  predicate RefAgrees(sources: map<string, Fields>, ref: string) {
    match PlaceOf(ref)
    case Nested(name, suffix) =>
      PlaceOf(name) == Flat(name) && ref in sources && name in sources ==> Get(sources[name], suffix) == Some(Obj(sources[ref]))
    case Flat(_) => true
  }

  lemma FlatPlaced(sources: map<string, Fields>, name: string)
    ensures Flat(name) in Placed(sources) <==> name in sources && PlaceOf(name) == Flat(name)
  {
    if Flat(name) in Placed(sources) {
      PlacedComesFromRef(sources, Flat(name));
    }
    if name in sources {
      PlacedAt(sources, name);
    }
  }

  lemma CompatibleIffRefsAgree(sources: map<string, Fields>)
    ensures Compatible(Placed(sources)) <==> forall ref :: RefAgrees(sources, ref)
  {
    forall p | p in Placed(sources) ensures Agrees(Placed(sources), p) <==> RefAgrees(sources, RefOf(p)) {
      PlacedComesFromRef(sources, p);
      PlacedAt(sources, RefOf(p));
      FlatPlaced(sources, p.owner);
      if Flat(p.owner) in Placed(sources) {
        PlacedAt(sources, p.owner);
      }
    }
    forall ref | ref in sources ensures PlaceOf(ref) in Placed(sources) && RefOf(PlaceOf(ref)) == ref {
      PlacedAt(sources, ref);
      PlaceDeterminesRef(ref);
    }
    forall p | p !in Placed(sources) ensures Agrees(Placed(sources), p) {}
  }

  /** Main result, on what the server iterates over: the object does not depend on the
      iteration order of the registry exactly when every nested source agrees with the
      source named like its label, which in practice means that there is no such pair. */
  lemma RefOrderIndependentIffAgree(sources: map<string, Fields>)
    ensures RefOrderIndependent(sources) <==> forall ref :: RefAgrees(sources, ref)
  {
    OrderIndependentIffCompatible(Placed(sources));
    CompatibleIffRefsAgree(sources);
    if OrderIndependent(Placed(sources)) {
      forall o1, o2 | IsOrder(o1, sources.Keys) && IsOrder(o2, sources.Keys) ensures BuildRefs(sources, o1) == BuildRefs(sources, o2) {
        PlacesInRegistry(sources, o1);
        PlacesInRegistry(sources, o2);
      }
    }
    if RefOrderIndependent(sources) {
      forall o1, o2 | IsOrder(o1, Placed(sources).Keys) && IsOrder(o2, Placed(sources).Keys)
        ensures Build(Placed(sources), o1, |o1|) == Build(Placed(sources), o2, |o2|) {
        PlacesFromRefs(sources, o1);
        PlacesFromRefs(sources, o2);
        assert BuildRefs(sources, Refs(o1)) == BuildRefs(sources, Refs(o2));
      }
    }
  }
}
