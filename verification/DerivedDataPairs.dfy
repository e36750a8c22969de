/** Two calculators that derive numbers: vocabulary shared by the studies of
    registered pairs (crates/plugins/derived-data/src/lib.rs). */
module DerivedDataPairs {
  import opened Basics
  import opened JsonModel
  import opened DerivedData
  import opened Deltas

  function NumberAt(s: Snapshot, p: string): Option<real> {
    if p in s then AsNum(s[p]) else None
  }

  function Entry(path: string, x: Option<real>): seq<PathValue> {
    if x.Some? then [PathValue(path, Num(x.value))] else []
  }

  lemma LastOfEntry(path: string, x: Option<real>, p: string)
    ensures Last(Entry(path, x), p) == if p == path && x.Some? then Some(Num(x.value)) else None
  {
    if x.Some? {
      assert Entry(path, x)[..0] == [];
    }
  }

  lemma NumberOfGet(s: Snapshot, p: string)
    ensures NumberAt(s, p) == if Get(s, p).Some? then AsNum(Get(s, p).value) else None
  {}

  lemma EntryIsIdle(s: Snapshot, path: string, x: Option<real>)
    ensures Write(s, Entry(path, x)) == s <==> (x.Some? ==> NumberAt(s, path) == x)
  {
    if x.Some? {
      assert Entry(path, x)[..0] == [];
      assert Write(s, Entry(path, x)) == s[path := Num(x.value)];
    }
  }

  lemma TwoRun(c: Calculator, d: Calculator, s: Snapshot, changed: seq<string>)
    ensures RunAffected([c, d], s, changed)
         == (if Affected(c, changed) then Outputs(c, s) else []) + (if Affected(d, changed) then Outputs(d, s) else [])
  {
    assert [c, d][..1] == [c] && [c][..0] == [];
    var first := if Affected(c, changed) then Outputs(c, s) else [];
    assert [] + first == first;
    assert RunAffected([c], s, changed) == first;
  }

  lemma AffectedByMember(c: Calculator, changed: seq<string>)
    ensures Affected(c, changed) <==> exists p :: p in changed && InputMatches(c, p)
  {
    if p :| p in changed && InputMatches(c, p) {
      var j :| 0 <= j < |changed| && changed[j] == p;
    }
  }

  lemma RoundsUnfold(calcs: seq<Calculator>, s: Snapshot, changed: seq<string>, n: nat)
    requires n > 0
    ensures var news := RunAffected(calcs, s, changed);
            Rounds(calcs, s, changed, n).0 == if news == [] then s else Rounds(calcs, Write(s, news), PathsOf(news), n - 1).0
  {}
}
