/** The derived-data plugin: change-driven re-evaluation of calculators over a
    snapshot, at most five rounds per incoming delta
    (crates/plugins/derived-data/src/lib.rs). */
module DerivedData {
  import opened Basics
  import opened JsonModel
  import opened Deltas

  type Snapshot = map<string, Json>

  /** A calculator is any pure function of the snapshot with declared inputs. */
  datatype Calculator = Calculator(name: string, inputs: seq<string>,
                                   calculate: Snapshot -> Option<seq<PathValue>>)

  const OWN_LABEL := "derived-data"
  const MAX_ITERATIONS := 5

  // ----- what the callback computes -----

  predicate PathMatchesInput(changed: string, input: string) {
    changed == input || input + "." <= changed
  }

  predicate InputMatches(c: Calculator, path: string) {
    exists i :: 0 <= i < |c.inputs| && PathMatchesInput(path, c.inputs[i])
  }

  predicate Affected(c: Calculator, changed: seq<string>) {
    exists j :: 0 <= j < |changed| && InputMatches(c, changed[j])
  }

  function Outputs(c: Calculator, s: Snapshot): seq<PathValue> {
    match c.calculate(s)
    case None => []
    case Some(outputs) => outputs
  }

  /** Inserting path values one after the other. */
  function Write(s: Snapshot, pvs: seq<PathValue>): Snapshot {
    if pvs == [] then s
    else
      var last := pvs[|pvs| - 1];
      Write(s, pvs[..|pvs| - 1])[last.path := last.value]
  }

  /** The last value written to path `p`. */
  function Last(pvs: seq<PathValue>, p: string): Option<Json> {
    if pvs == [] then None
    else if pvs[|pvs| - 1].path == p then Some(pvs[|pvs| - 1].value)
    else Last(pvs[..|pvs| - 1], p)
  }

  function PathsOf(pvs: seq<PathValue>): seq<string> {
    seq(|pvs|, i requires 0 <= i < |pvs| => pvs[i].path)
  }

  /** Values a plugin-foreign delta brings in, in order. */
  function Incoming(updates: seq<Update>): seq<PathValue> {
    if updates == [] then []
    else
      var last := updates[|updates| - 1];
      Incoming(updates[..|updates| - 1]) + (if last.source.sourceLabel == OWN_LABEL then [] else last.values)
  }

  /** A value at `p` comes in as the `j`-th of the `i`-th update, which is not the plugin's own. */
  predicate Arrives(updates: seq<Update>, i: int, j: int, p: string) {
    && 0 <= i < |updates| && updates[i].source.sourceLabel != "derived-data"
    && 0 <= j < |updates[i].values| && updates[i].values[j].path == p
  }

  /** No value at `p` comes in after this one. */
  ghost predicate ArrivesLast(updates: seq<Update>, i: int, j: int, p: string) {
    Arrives(updates, i, j, p) && forall k, l :: Arrives(updates, k, l, p) ==> k < i || (k == i && l <= j)
  }

  /** `after` has at `p` the last value that came in there, and else what `before` had. */
  ghost predicate TookIn(before: Snapshot, after: Snapshot, updates: seq<Update>, p: string) {
    || (exists i, j :: ArrivesLast(updates, i, j, p) && Get(after, p) == Some(updates[i].values[j].value))
    || ((forall i, j :: !Arrives(updates, i, j, p)) && Get(after, p) == Get(before, p))
  }

  /** No calculator ever has a value for `p`. */
  ghost predicate NeverDerived(calcs: seq<Calculator>, p: string) {
    forall c, s: Snapshot :: c in calcs ==> p !in PathsOf(Outputs(c, s))
  }

  /** One round: the outputs of the calculators some changed path affects. */
  function RunAffected(calcs: seq<Calculator>, s: Snapshot, changed: seq<string>): seq<PathValue> {
    if calcs == [] then []
    else
      var c := calcs[|calcs| - 1];
      RunAffected(calcs[..|calcs| - 1], s, changed) + (if Affected(c, changed) then Outputs(c, s) else [])
  }

  /** Up to `n` rounds: the resulting snapshot and everything derived. */
  function Rounds(calcs: seq<Calculator>, s: Snapshot, changed: seq<string>, n: nat): (Snapshot, seq<PathValue>)
    decreases n
  {
    if n == 0 then (s, [])
    else
      var news := RunAffected(calcs, s, changed);
      if news == [] then (s, [])
      else
        var rest := Rounds(calcs, Write(s, news), PathsOf(news), n - 1);
        (rest.0, news + rest.1)
  }

  function Callback(calcs: seq<Calculator>, s: Snapshot, updates: seq<Update>): (Snapshot, seq<PathValue>) {
    var pvs := Incoming(updates);
    Rounds(calcs, Write(s, pvs), PathsOf(pvs), MAX_ITERATIONS)
  }

  /** All that the loop still has to do after deriving `derived`. */
  ghost predicate Remaining(all: (Snapshot, seq<PathValue>), calcs: seq<Calculator>, s: Snapshot, changed: seq<string>,
                            n: nat, derived: seq<PathValue>) {
    var rest := Rounds(calcs, s, changed, n);
    all.0 == rest.0 && all.1 == derived + rest.1
  }

  lemma OneRoundLess(all: (Snapshot, seq<PathValue>), calcs: seq<Calculator>, s: Snapshot, changed: seq<string>,
                     n: nat, derived: seq<PathValue>)
    requires Remaining(all, calcs, s, changed, n, derived) && n > 0 && RunAffected(calcs, s, changed) != []
    ensures var news := RunAffected(calcs, s, changed);
            Remaining(all, calcs, Write(s, news), PathsOf(news), n - 1, derived + news)
  {
    var news := RunAffected(calcs, s, changed);
    var rest := Rounds(calcs, Write(s, news), PathsOf(news), n - 1);
    assert derived + (news + rest.1) == derived + news + rest.1;
  }

  lemma NoRoundLeft(all: (Snapshot, seq<PathValue>), calcs: seq<Calculator>, s: Snapshot, changed: seq<string>,
                    n: nat, derived: seq<PathValue>)
    requires Remaining(all, calcs, s, changed, n, derived) && (n == 0 || RunAffected(calcs, s, changed) == [])
    ensures all == (s, derived)
  {
    assert derived + [] == derived;
  }

  /** The subscription callback with the state it closes over. */
  class Engine {
    const enabled: seq<Calculator>
    var snapshot: Snapshot
    /** Deltas handed to the store, each a set of path values. */
    var emitted: seq<map<string, Json>>

    constructor (enabled: seq<Calculator>)
      ensures this.enabled == enabled && snapshot == map[] && emitted == []
    {
      this.enabled := enabled;
      snapshot := map[];
      emitted := [];
    }

    method OnDelta(updates: seq<Update>)
      modifies this
      ensures snapshot == Callback(enabled, old(snapshot), updates).0
      ensures var derived := Callback(enabled, old(snapshot), updates).1;
              if derived == [] then emitted == old(emitted)
              else exists d :: emitted == old(emitted) + [d]
                               && (forall p :: p in d <==> p in PathsOf(derived))
                               && (forall p :: p in d ==> p in snapshot && d[p] == snapshot[p])
      ensures forall p :: NeverDerived(enabled, p) ==> TookIn(old(snapshot), snapshot, updates, p)
    {
      forall p | NeverDerived(enabled, p) ensures TookIn(snapshot, Callback(enabled, snapshot, updates).0, updates, p) {
        CallbackKeepsLatest(enabled, snapshot, updates, p);
      }
      var changed := TakeIn(updates);
      ghost var start := snapshot;
      if changed == [] {
        NothingIncoming(enabled, snapshot);
        return;
      }
      var derived := Converge(changed, MAX_ITERATIONS);
      if derived != [] {
        var deduped := Dedup(derived);
        DedupAgrees(start, derived);
        emitted := emitted + [deduped];
      }
    }

    /** Step 1: store the incoming values, skipping the plugin's own deltas. */
    method TakeIn(updates: seq<Update>) returns (changed: seq<string>)
      modifies this
      ensures snapshot == Write(old(snapshot), Incoming(updates)) && emitted == old(emitted)
      ensures changed == PathsOf(Incoming(updates))
      ensures forall p :: TookIn(old(snapshot), snapshot, updates, p)
    {
      forall p ensures TookIn(snapshot, Write(snapshot, Incoming(updates)), updates, p) {
        LatestIsTakenIn(snapshot, updates, p);
      }
      changed := [];
      for i := 0 to |updates|
        invariant snapshot == Write(old(snapshot), Incoming(updates[..i])) && emitted == old(emitted)
        invariant changed == PathsOf(Incoming(updates[..i]))
      {
        assert updates[..i + 1][..i] == updates[..i];
        ghost var before := Incoming(updates[..i]);
        assert before + [] == before;
        if updates[i].source.sourceLabel != OWN_LABEL {
          var values := updates[i].values;
          assert values[..0] == [];
          for j := 0 to |values|
            invariant snapshot == Write(old(snapshot), before + values[..j]) && emitted == old(emitted)
            invariant changed == PathsOf(before + values[..j])
          {
            WriteStep(old(snapshot), before, values, j);
            snapshot := snapshot[values[j].path := values[j].value];
            changed := changed + [values[j].path];
          }
          assert values[..|values|] == values;
        }
      }
      assert updates[..|updates|] == updates;
    }

    /** Step 2: run the affected calculators on the current snapshot. */
    method RunCalculators(changed: seq<string>) returns (news: seq<PathValue>)
      ensures news == RunAffected(enabled, snapshot, changed)
    {
      news := [];
      for k := 0 to |enabled|
        invariant news == RunAffected(enabled[..k], snapshot, changed)
      {
        assert enabled[..k + 1][..k] == enabled[..k];
        if Affected(enabled[k], changed) {
          match enabled[k].calculate(snapshot)
          case None =>
          case Some(outputs) => news := news + outputs;
        }
      }
      assert enabled[..|enabled|] == enabled;
    }

    /** The bounded loop around step 2. */
    method Converge(startChanged: seq<string>, limit: nat) returns (derived: seq<PathValue>)
      modifies this
      ensures (snapshot, derived) == Rounds(enabled, old(snapshot), startChanged, limit)
      ensures snapshot == Write(old(snapshot), derived) && emitted == old(emitted)
    {
      ghost var all := Rounds(enabled, snapshot, startChanged, limit);
      var changed := startChanged;
      derived := [];
      assert [] + all.1 == all.1;
      var round := 0;
      while round < limit
        invariant 0 <= round <= limit
        invariant snapshot == Write(old(snapshot), derived) && emitted == old(emitted)
        invariant Remaining(all, enabled, snapshot, changed, limit - round, derived)
      {
        var news := RunCalculators(changed);
        if news == [] {
          break;
        }
        OneRoundLess(all, enabled, snapshot, changed, limit - round, derived);
        WriteAll(old(snapshot), derived, news);
        changed := FeedBack(news);
        derived := derived + news;
        round := round + 1;
      }
      NoRoundLeft(all, enabled, snapshot, changed, limit - round, derived);
    }

    /** Feed derived values back for the next round. */
    method FeedBack(news: seq<PathValue>) returns (changed: seq<string>)
      modifies this
      ensures snapshot == Write(old(snapshot), news) && emitted == old(emitted)
      ensures changed == PathsOf(news)
    {
      changed := [];
      for k := 0 to |news|
        invariant snapshot == Write(old(snapshot), news[..k]) && emitted == old(emitted)
        invariant changed == PathsOf(news[..k])
      {
        WriteStep(old(snapshot), [], news, k);
        snapshot := snapshot[news[k].path := news[k].value];
        changed := changed + [news[k].path];
      }
      assert news[..|news|] == news;
    }

    /** Step 3: one value per derived path. */
    static method Dedup(derived: seq<PathValue>) returns (deduped: map<string, Json>)
      ensures deduped == Write(map[], derived)
    {
      deduped := map[];
      for k := 0 to |derived|
        invariant deduped == Write(map[], derived[..k])
      {
        WriteStep(map[], [], derived, k);
        deduped := deduped[derived[k].path := derived[k].value];
      }
      assert derived[..|derived|] == derived;
    }
  }

  // ----- writing -----

  lemma WriteStep(s: Snapshot, before: seq<PathValue>, values: seq<PathValue>, j: nat)
    requires j < |values|
    ensures Write(s, before + values[..j + 1])
         == Write(s, before + values[..j])[values[j].path := values[j].value]
    ensures PathsOf(before + values[..j + 1]) == PathsOf(before + values[..j]) + [values[j].path]
    ensures before + values[..0] == before && [] + values[..j] == values[..j] && [] + values[..j + 1] == values[..j + 1]
  {
    var longer := before + values[..j + 1];
    assert longer[..|longer| - 1] == before + values[..j];
  }

  lemma {:induction false} WriteAll(s: Snapshot, a: seq<PathValue>, b: seq<PathValue>)
    ensures Write(s, a + b) == Write(Write(s, a), b)
  {
    if b == [] {
      assert a + b == a;
    } else {
      WriteAll(s, a, b[..|b| - 1]);
      assert (a + b)[..|a + b| - 1] == a + b[..|b| - 1];
    }
  }

  lemma NothingIncoming(calcs: seq<Calculator>, s: Snapshot)
    ensures Rounds(calcs, s, [], MAX_ITERATIONS) == (s, [])
  {
    NoneAffected(calcs, s);
  }

  lemma {:induction false} NoneAffected(calcs: seq<Calculator>, s: Snapshot)
    ensures RunAffected(calcs, s, []) == []
  {
    if calcs != [] {
      NoneAffected(calcs[..|calcs| - 1], s);
    }
  }

  /** A lookup after writing sees the last write, or the old value. */
  lemma {:induction false} WriteLookup(s: Snapshot, pvs: seq<PathValue>, p: string)
    ensures Get(Write(s, pvs), p) == if Last(pvs, p).Some? then Last(pvs, p) else Get(s, p)
    ensures Last(pvs, p).Some? <==> p in PathsOf(pvs)
  {
    if pvs != [] {
      var shorter := pvs[..|pvs| - 1];
      WriteLookup(s, shorter, p);
      assert PathsOf(pvs) == PathsOf(shorter) + [pvs[|pvs| - 1].path];
    }
  }

  lemma {:induction false} LastOfConcat(a: seq<PathValue>, b: seq<PathValue>, p: string)
    ensures Last(a + b, p) == if Last(b, p).Some? then Last(b, p) else Last(a, p)
  {
    if b == [] {
      assert a + b == a;
    } else {
      LastOfConcat(a, b[..|b| - 1], p);
      assert (a + b)[..|a + b| - 1] == a + b[..|b| - 1];
    }
  }

  // ----- the last value that comes in -----

  lemma {:induction false} LastHasGreatestIndex(pvs: seq<PathValue>, p: string)
    ensures Last(pvs, p).None? ==> forall j :: 0 <= j < |pvs| ==> pvs[j].path != p
    ensures Last(pvs, p).Some? ==> exists j :: 0 <= j < |pvs| && pvs[j].path == p && Last(pvs, p) == Some(pvs[j].value)
                                               && forall l :: j < l < |pvs| ==> pvs[l].path != p
  {
    if pvs != [] {
      LastHasGreatestIndex(pvs[..|pvs| - 1], p);
    }
  }

  /** The last incoming value is the one with the greatest indices. */
  ghost predicate IsLastArrival(updates: seq<Update>, p: string, last: Option<Json>) {
    if last.None? then forall i, j :: !Arrives(updates, i, j, p)
    else exists i, j :: ArrivesLast(updates, i, j, p) && last == Some(updates[i].values[j].value)
  }

  lemma OneUpdateMore(before: seq<Update>, u: Update, p: string, last: Option<Json>)
    requires IsLastArrival(before, p, last)
    ensures var own := if u.source.sourceLabel == OWN_LABEL then None else Last(u.values, p);
            IsLastArrival(before + [u], p, if own.Some? then own else last)
  {
    var updates, n := before + [u], |before|;
    assert forall i, j :: Arrives(updates, i, j, p) <==> if i < n then Arrives(before, i, j, p) else i == n && Arrives([u], 0, j, p);
    LastHasGreatestIndex(u.values, p);
    if u.source.sourceLabel != OWN_LABEL && Last(u.values, p).Some? {
      var j :| 0 <= j < |u.values| && u.values[j].path == p && Last(u.values, p) == Some(u.values[j].value)
               && forall l :: j < l < |u.values| ==> u.values[l].path != p;
      assert ArrivesLast(updates, n, j, p);
    } else if last.Some? {
      var i, j :| ArrivesLast(before, i, j, p) && last == Some(before[i].values[j].value);
      assert ArrivesLast(updates, i, j, p);
    }
  }

  lemma {:induction false} LastIncoming(updates: seq<Update>, p: string)
    ensures IsLastArrival(updates, p, Last(Incoming(updates), p))
  {
    if updates != [] {
      var before, u := updates[..|updates| - 1], updates[|updates| - 1];
      LastIncoming(before, p);
      OneUpdateMore(before, u, p, Last(Incoming(before), p));
      LastOfConcat(Incoming(before), if u.source.sourceLabel == OWN_LABEL then [] else u.values, p);
      assert before + [u] == updates;
    }
  }

  /** Main result: taking a delta in leaves at every path the value with the greatest update
      and value index among the updates of others, and the former value if there is none. */
  lemma LatestIsTakenIn(s: Snapshot, updates: seq<Update>, p: string)
    ensures TookIn(s, Write(s, Incoming(updates)), updates, p)
  {
    LastIncoming(updates, p);
    WriteLookup(s, Incoming(updates), p);
  }

  lemma {:induction false} NothingAffectedDerives(calcs: seq<Calculator>, s: Snapshot, changed: seq<string>, p: string)
    requires NeverDerived(calcs, p)
    ensures Last(RunAffected(calcs, s, changed), p) == None
  {
    if calcs != [] {
      var c := calcs[|calcs| - 1];
      NothingAffectedDerives(calcs[..|calcs| - 1], s, changed, p);
      LastOfConcat(RunAffected(calcs[..|calcs| - 1], s, changed), if Affected(c, changed) then Outputs(c, s) else [], p);
      WriteLookup(s, Outputs(c, s), p);
    }
  }

  lemma {:induction false} RoundsKeepUnderived(calcs: seq<Calculator>, s: Snapshot, changed: seq<string>, n: nat, p: string)
    requires NeverDerived(calcs, p)
    ensures Get(Rounds(calcs, s, changed, n).0, p) == Get(s, p)
    decreases n
  {
    if n > 0 {
      var news := RunAffected(calcs, s, changed);
      NothingAffectedDerives(calcs, s, changed, p);
      WriteLookup(s, news, p);
      if news != [] {
        RoundsKeepUnderived(calcs, Write(s, news), PathsOf(news), n - 1, p);
      }
    }
  }

  /** So does the whole callback, at every path no calculator writes. */
  lemma CallbackKeepsLatest(calcs: seq<Calculator>, s: Snapshot, updates: seq<Update>, p: string)
    requires NeverDerived(calcs, p)
    ensures TookIn(s, Callback(calcs, s, updates).0, updates, p)
  {
    var pvs := Incoming(updates);
    LatestIsTakenIn(s, updates, p);
    RoundsKeepUnderived(calcs, Write(s, pvs), PathsOf(pvs), MAX_ITERATIONS, p);
  }

  /** Deduplicating the derived values keeps, per path, the value the snapshot ends with. */
  lemma DedupAgrees(start: Snapshot, derived: seq<PathValue>)
    ensures var d := Write(map[], derived);
            && (forall p :: p in d <==> p in PathsOf(derived))
            && (forall p :: p in d ==> p in Write(start, derived) && d[p] == Write(start, derived)[p])
  {
    forall p
      ensures p in Write(map[], derived) <==> p in PathsOf(derived)
      ensures p in PathsOf(derived) ==> Get(Write(map[], derived), p) == Get(Write(start, derived), p)
    {
      WriteLookup(map[], derived, p);
      WriteLookup(start, derived, p);
    }
  }

  // ----- assumptions on the calculators -----

  /** What a calculator reads and writes, and its level in the dependency graph. */
  datatype Footprint = Footprint(readSet: iset<string>, writeSet: iset<string>, rank: nat)

  ghost predicate AgreeOn(a: Snapshot, b: Snapshot, paths: iset<string>) {
    forall p :: p in paths ==> Get(a, p) == Get(b, p)
  }

  /** The result depends only on paths covered by the declared inputs, and is
      written only to the calculator's own paths. */
  ghost predicate Honest(c: Calculator, f: Footprint) {
    && (forall p :: p in f.readSet ==> InputMatches(c, p))
    && (forall a: Snapshot, b: Snapshot {:trigger AgreeOn(a, b, f.readSet)} ::
          AgreeOn(a, b, f.readSet) ==> Outputs(c, a) == Outputs(c, b))
    && (forall s: Snapshot, p :: p in PathsOf(Outputs(c, s)) ==> p in f.writeSet)
  }

  /** Honest calculators, no two writing the same path. */
  ghost predicate WellBehaved(calcs: seq<Calculator>, fps: seq<Footprint>) {
    && |calcs| == |fps|
    && (forall i :: 0 <= i < |calcs| ==> Honest(calcs[i], fps[i]))
    && (forall i, j :: 0 <= i < j < |fps| ==> fps[i].writeSet !! fps[j].writeSet)
  }

  /** No calculator reads what one of its own or a higher level writes; levels
      run from 1 to `depth`. */
  ghost predicate Layered(fps: seq<Footprint>, depth: nat) {
    && (forall i :: 0 <= i < |fps| ==> 1 <= fps[i].rank <= depth)
    && (forall i, j :: 0 <= i < |fps| && 0 <= j < |fps| && fps[i].rank <= fps[j].rank
                       ==> fps[i].readSet !! fps[j].writeSet)
  }

  ghost predicate WritesNoOutput(pvs: seq<PathValue>, fps: seq<Footprint>) {
    forall p, i :: p in PathsOf(pvs) && 0 <= i < |fps| ==> p !in fps[i].writeSet
  }

  // ----- consistency -----

  /** Running the calculator and storing its outputs changes nothing. */
  ghost predicate Consistent(c: Calculator, s: Snapshot) {
    Write(s, Outputs(c, s)) == s
  }

  ghost predicate AllConsistent(calcs: seq<Calculator>, s: Snapshot) {
    forall i :: 0 <= i < |calcs| ==> Consistent(calcs[i], s)
  }

  /** The loop invariant: only calculators affected by the last changes can be stale. */
  ghost predicate StaleOnlyIfAffected(calcs: seq<Calculator>, s: Snapshot, changed: seq<string>) {
    forall i :: 0 <= i < |calcs| ==> Affected(calcs[i], changed) || Consistent(calcs[i], s)
  }

  ghost predicate Settled(calcs: seq<Calculator>, fps: seq<Footprint>, s: Snapshot, rank: nat)
    requires |calcs| == |fps|
  {
    forall i :: 0 <= i < |calcs| && fps[i].rank <= rank ==> Consistent(calcs[i], s)
  }

  /** `s` already holds what `pvs` would write. */
  ghost predicate Holds(s: Snapshot, pvs: seq<PathValue>) {
    forall p :: Last(pvs, p).Some? ==> Get(s, p) == Last(pvs, p)
  }

  lemma HoldsIffWriteIsIdle(s: Snapshot, pvs: seq<PathValue>)
    ensures Holds(s, pvs) <==> Write(s, pvs) == s
  {
    forall p ensures Get(Write(s, pvs), p) == if Last(pvs, p).Some? then Last(pvs, p) else Get(s, p) {
      WriteLookup(s, pvs, p);
    }
    if Holds(s, pvs) {
      SameMaps(Write(s, pvs), s);
    }
  }

  /** In a round, a path owned by calculator `i` receives that calculator's
      output if it ran, and nothing otherwise. */
  lemma {:induction false} OwnerWrites(calcs: seq<Calculator>, fps: seq<Footprint>, s: Snapshot,
                                       changed: seq<string>, i: nat, p: string)
    requires WellBehaved(calcs, fps) && i < |calcs| && p in fps[i].writeSet
    ensures Last(RunAffected(calcs, s, changed), p)
         == if Affected(calcs[i], changed) then Last(Outputs(calcs[i], s), p) else None
  {
    var n := |calcs| - 1;
    var own := if Affected(calcs[n], changed) then Outputs(calcs[n], s) else [];
    LastOfConcat(RunAffected(calcs[..n], s, changed), own, p);
    if i == n {
      NobodyWrites(calcs[..n], fps[..n], s, changed, p);
    } else {
      OwnerWrites(calcs[..n], fps[..n], s, changed, i, p);
      WriteLookup(s, Outputs(calcs[n], s), p);
    }
  }

  lemma {:induction false} NobodyWrites(calcs: seq<Calculator>, fps: seq<Footprint>, s: Snapshot,
                                        changed: seq<string>, p: string)
    requires WellBehaved(calcs, fps)
    requires forall i :: 0 <= i < |fps| ==> p !in fps[i].writeSet
    ensures Last(RunAffected(calcs, s, changed), p) == None
  {
    if calcs != [] {
      var n := |calcs| - 1;
      NobodyWrites(calcs[..n], fps[..n], s, changed, p);
      WriteLookup(s, Outputs(calcs[n], s), p);
      LastOfConcat(RunAffected(calcs[..n], s, changed),
                   if Affected(calcs[n], changed) then Outputs(calcs[n], s) else [], p);
    }
  }

  lemma UnaffectedKeepsOutputs(c: Calculator, f: Footprint, s: Snapshot, pvs: seq<PathValue>)
    requires Honest(c, f) && !Affected(c, PathsOf(pvs))
    ensures Outputs(c, Write(s, pvs)) == Outputs(c, s)
  {
    forall p | p in f.readSet ensures Get(Write(s, pvs), p) == Get(s, p) {
      WriteLookup(s, pvs, p);
      assert InputMatches(c, p);
    }
    assert AgreeOn(Write(s, pvs), s, f.readSet);
  }

  /** After a round, calculator `i` is consistent if its outputs did not change
      and it either ran or was consistent before. */
  lemma RoundInstalls(calcs: seq<Calculator>, fps: seq<Footprint>, s: Snapshot, changed: seq<string>, i: nat)
    requires WellBehaved(calcs, fps) && i < |calcs|
    requires Affected(calcs[i], changed) || Consistent(calcs[i], s)
    requires Outputs(calcs[i], Write(s, RunAffected(calcs, s, changed))) == Outputs(calcs[i], s)
    ensures Consistent(calcs[i], Write(s, RunAffected(calcs, s, changed)))
  {
    var news, own := RunAffected(calcs, s, changed), Outputs(calcs[i], s);
    HoldsIffWriteIsIdle(s, own);
    forall p | Last(own, p).Some? ensures Get(Write(s, news), p) == Last(own, p) {
      WriteLookup(s, own, p);
      WriteLookup(s, news, p);
      OwnerWrites(calcs, fps, s, changed, i, p);
    }
    HoldsIffWriteIsIdle(Write(s, news), own);
  }

  lemma RoundKeepsInvariant(calcs: seq<Calculator>, fps: seq<Footprint>, s: Snapshot, changed: seq<string>)
    requires WellBehaved(calcs, fps) && StaleOnlyIfAffected(calcs, s, changed)
    ensures var news := RunAffected(calcs, s, changed);
            StaleOnlyIfAffected(calcs, Write(s, news), PathsOf(news))
  {
    var news := RunAffected(calcs, s, changed);
    forall i | 0 <= i < |calcs| && !Affected(calcs[i], PathsOf(news))
      ensures Consistent(calcs[i], Write(s, news))
    {
      UnaffectedKeepsOutputs(calcs[i], fps[i], s, news);
      RoundInstalls(calcs, fps, s, changed, i);
    }
  }

  /** A round settles one more level: what a level reads no longer changes once
      the levels below are consistent. */
  lemma RoundSettlesOneLevel(calcs: seq<Calculator>, fps: seq<Footprint>, depth: nat, s: Snapshot,
                             changed: seq<string>, rank: nat)
    requires WellBehaved(calcs, fps) && Layered(fps, depth)
    requires StaleOnlyIfAffected(calcs, s, changed) && Settled(calcs, fps, s, rank)
    ensures Settled(calcs, fps, Write(s, RunAffected(calcs, s, changed)), rank + 1)
  {
    var news := RunAffected(calcs, s, changed);
    forall i | 0 <= i < |calcs| && fps[i].rank <= rank + 1
      ensures Consistent(calcs[i], Write(s, news))
    {
      forall p | p in fps[i].readSet ensures Get(Write(s, news), p) == Get(s, p) {
        WriteLookup(s, news, p);
        if j :| 0 <= j < |fps| && p in fps[j].writeSet {
          assert fps[j].rank < fps[i].rank;
          OwnerWrites(calcs, fps, s, changed, j, p);
          HoldsIffWriteIsIdle(s, Outputs(calcs[j], s));
        } else {
          NobodyWrites(calcs, fps, s, changed, p);
        }
      }
      assert AgreeOn(Write(s, news), s, fps[i].readSet);
      RoundInstalls(calcs, fps, s, changed, i);
    }
  }

  lemma {:induction false} NothingFresh(calcs: seq<Calculator>, s: Snapshot, changed: seq<string>)
    requires StaleOnlyIfAffected(calcs, s, changed) && RunAffected(calcs, s, changed) == []
    ensures AllConsistent(calcs, s)
  {
    if calcs != [] {
      var n := |calcs| - 1;
      assert Affected(calcs[n], changed) || Consistent(calcs[n], s);
      NothingFresh(calcs[..n], s, changed);
      forall i | 0 <= i < |calcs| ensures Consistent(calcs[i], s) {
        if i < n {
          assert calcs[..n][i] == calcs[i];
        }
      }
    }
  }

  lemma {:induction false} RoundsSettle(calcs: seq<Calculator>, fps: seq<Footprint>, depth: nat, s: Snapshot,
                                        changed: seq<string>, rank: nat, n: nat)
    requires WellBehaved(calcs, fps) && Layered(fps, depth) && depth <= rank + n
    requires StaleOnlyIfAffected(calcs, s, changed) && Settled(calcs, fps, s, rank)
    ensures AllConsistent(calcs, Rounds(calcs, s, changed, n).0)
    decreases n
  {
    if n > 0 {
      var news := RunAffected(calcs, s, changed);
      if news == [] {
        NothingFresh(calcs, s, changed);
      } else {
        RoundKeepsInvariant(calcs, fps, s, changed);
        RoundSettlesOneLevel(calcs, fps, depth, s, changed, rank);
        RoundsSettle(calcs, fps, depth, Write(s, news), PathsOf(news), rank + 1, n - 1);
      }
    }
  }

  lemma IncomingKeepsInvariant(calcs: seq<Calculator>, fps: seq<Footprint>, s: Snapshot, pvs: seq<PathValue>)
    requires WellBehaved(calcs, fps) && AllConsistent(calcs, s) && WritesNoOutput(pvs, fps)
    ensures StaleOnlyIfAffected(calcs, Write(s, pvs), PathsOf(pvs))
  {
    forall i | 0 <= i < |calcs| && !Affected(calcs[i], PathsOf(pvs))
      ensures Consistent(calcs[i], Write(s, pvs))
    {
      var own := Outputs(calcs[i], s);
      UnaffectedKeepsOutputs(calcs[i], fps[i], s, pvs);
      HoldsIffWriteIsIdle(s, own);
      forall p | Last(own, p).Some? ensures Get(Write(s, pvs), p) == Last(own, p) {
        WriteLookup(s, own, p);
        WriteLookup(s, pvs, p);
      }
      HoldsIffWriteIsIdle(Write(s, pvs), own);
    }
  }

  /** Main result: after a callback the snapshot is a fixpoint of every enabled
      calculator, whichever of them the delta touched. */
  lemma CallbackReachesFixpoint(calcs: seq<Calculator>, fps: seq<Footprint>, s: Snapshot, updates: seq<Update>)
    requires WellBehaved(calcs, fps) && Layered(fps, MAX_ITERATIONS)
    requires AllConsistent(calcs, s) && WritesNoOutput(Incoming(updates), fps)
    ensures AllConsistent(calcs, Callback(calcs, s, updates).0)
  {
    var pvs := Incoming(updates);
    IncomingKeepsInvariant(calcs, fps, s, pvs);
    RoundsSettle(calcs, fps, MAX_ITERATIONS, Write(s, pvs), PathsOf(pvs), 0, MAX_ITERATIONS);
  }

  /** The snapshot after a whole run of deltas. */
  function Run(calcs: seq<Calculator>, s: Snapshot, deltas: seq<seq<Update>>): Snapshot {
    if deltas == [] then s
    else Callback(calcs, Run(calcs, s, deltas[..|deltas| - 1]), deltas[|deltas| - 1]).0
  }

  /** Starting empty, where no calculator has anything to say, every run of
      deltas leaves a fixpoint. */
  lemma {:induction false} EveryRunReachesFixpoint(calcs: seq<Calculator>, fps: seq<Footprint>, deltas: seq<seq<Update>>)
    requires WellBehaved(calcs, fps) && Layered(fps, MAX_ITERATIONS)
    requires forall i :: 0 <= i < |calcs| ==> calcs[i].calculate(map[]) == None
    requires forall k :: 0 <= k < |deltas| ==> WritesNoOutput(Incoming(deltas[k]), fps)
    ensures AllConsistent(calcs, Run(calcs, map[], deltas))
  {
    if deltas != [] {
      var n := |deltas| - 1;
      EveryRunReachesFixpoint(calcs, fps, deltas[..n]);
      CallbackReachesFixpoint(calcs, fps, Run(calcs, map[], deltas[..n]), deltas[n]);
    }
  }

  /** All updates of a run, in order. */
  function Joined(deltas: seq<seq<Update>>): seq<Update> {
    if deltas == [] then [] else Joined(deltas[..|deltas| - 1]) + deltas[|deltas| - 1]
  }

  lemma {:induction false} IncomingOfConcat(a: seq<Update>, b: seq<Update>)
    ensures Incoming(a + b) == Incoming(a) + Incoming(b)
  {
    if b == [] {
      assert a + b == a && Incoming(a) + [] == Incoming(a);
    } else {
      IncomingOfConcat(a, b[..|b| - 1]);
      assert (a + b)[..|a + b| - 1] == a + b[..|b| - 1];
    }
  }

  lemma {:induction false} RunHoldsLast(calcs: seq<Calculator>, s: Snapshot, deltas: seq<seq<Update>>, p: string)
    requires NeverDerived(calcs, p)
    ensures var last := Last(Incoming(Joined(deltas)), p); Get(Run(calcs, s, deltas), p) == if last.Some? then last else Get(s, p)
  {
    if deltas != [] {
      var before, d := deltas[..|deltas| - 1], deltas[|deltas| - 1];
      var mid := Run(calcs, s, before);
      RunHoldsLast(calcs, s, before, p);
      RoundsKeepUnderived(calcs, Write(mid, Incoming(d)), PathsOf(Incoming(d)), MAX_ITERATIONS, p);
      WriteLookup(mid, Incoming(d), p);
      IncomingOfConcat(Joined(before), d);
      LastOfConcat(Incoming(Joined(before)), Incoming(d), p);
    }
  }

  /** Main result: after every run, each path no calculator writes holds the value that came
      in last, in the order of deltas, updates and values. */
  lemma EveryRunHoldsLatest(calcs: seq<Calculator>, s: Snapshot, deltas: seq<seq<Update>>, p: string)
    requires NeverDerived(calcs, p)
    ensures TookIn(s, Run(calcs, s, deltas), Joined(deltas), p)
  {
    RunHoldsLast(calcs, s, deltas, p);
    LastIncoming(Joined(deltas), p);
  }

  // ----- refinement of the naive engine -----

  /** Reference: every calculator runs in every round. */
  function RunAll(calcs: seq<Calculator>, s: Snapshot): seq<PathValue> {
    if calcs == [] then []
    else RunAll(calcs[..|calcs| - 1], s) + Outputs(calcs[|calcs| - 1], s)
  }

  function NaiveRounds(calcs: seq<Calculator>, s: Snapshot, n: nat): Snapshot
    decreases n
  {
    if n == 0 then s else NaiveRounds(calcs, Write(s, RunAll(calcs, s)), n - 1)
  }

  /** Skipping unaffected calculators does not change what a round stores. */
  lemma {:induction false} SkippingIsIdle(calcs: seq<Calculator>, fps: seq<Footprint>, s: Snapshot,
                                          changed: seq<string>, p: string)
    requires WellBehaved(calcs, fps) && StaleOnlyIfAffected(calcs, s, changed)
    ensures Get(Write(s, RunAll(calcs, s)), p) == Get(Write(s, RunAffected(calcs, s, changed)), p)
  {
    if calcs != [] {
      var n := |calcs| - 1;
      var own := Outputs(calcs[n], s);
      var ran := if Affected(calcs[n], changed) then own else [];
      assert forall i :: 0 <= i < n ==> calcs[..n][i] == calcs[i];
      SkippingIsIdle(calcs[..n], fps[..n], s, changed, p);
      LastOfConcat(RunAll(calcs[..n], s), own, p);
      LastOfConcat(RunAffected(calcs[..n], s, changed), ran, p);
      WriteLookup(s, RunAll(calcs, s), p);
      WriteLookup(s, RunAffected(calcs, s, changed), p);
      WriteLookup(s, RunAll(calcs[..n], s), p);
      WriteLookup(s, RunAffected(calcs[..n], s, changed), p);
      if ran != own && Last(own, p).Some? {
        HoldsIffWriteIsIdle(s, own);
        WriteLookup(s, own, p);
        OwnerWrites(calcs, fps, s, changed, n, p);
      }
    }
  }

  lemma {:induction false} IdleRounds(calcs: seq<Calculator>, s: Snapshot, n: nat)
    requires Write(s, RunAll(calcs, s)) == s
    ensures NaiveRounds(calcs, s, n) == s
  {
    if n > 0 {
      IdleRounds(calcs, s, n - 1);
    }
  }

  lemma SameRound(calcs: seq<Calculator>, fps: seq<Footprint>, s: Snapshot, changed: seq<string>)
    requires WellBehaved(calcs, fps) && StaleOnlyIfAffected(calcs, s, changed)
    ensures Write(s, RunAll(calcs, s)) == Write(s, RunAffected(calcs, s, changed))
  {
    var all, affected := Write(s, RunAll(calcs, s)), Write(s, RunAffected(calcs, s, changed));
    forall p ensures Get(all, p) == Get(affected, p) {
      SkippingIsIdle(calcs, fps, s, changed, p);
    }
    SameMaps(all, affected);
  }

  lemma NaiveFollows(calcs: seq<Calculator>, fps: seq<Footprint>, s: Snapshot, changed: seq<string>, n: nat)
    requires WellBehaved(calcs, fps) && StaleOnlyIfAffected(calcs, s, changed) && n > 0
    ensures var news := RunAffected(calcs, s, changed);
            && NaiveRounds(calcs, s, n) == NaiveRounds(calcs, Write(s, news), n - 1)
            && (news == [] ==> NaiveRounds(calcs, s, n) == s)
  {
    SameRound(calcs, fps, s, changed);
    if RunAffected(calcs, s, changed) == [] {
      IdleRounds(calcs, s, n);
    }
  }

  /** Main result: the change-driven engine computes exactly what running every
      calculator in every round computes. The dependency graph may be cyclic. */
  lemma {:induction false} RefinesNaive(calcs: seq<Calculator>, fps: seq<Footprint>, s: Snapshot,
                                        changed: seq<string>, n: nat)
    requires WellBehaved(calcs, fps) && StaleOnlyIfAffected(calcs, s, changed)
    ensures Rounds(calcs, s, changed, n).0 == NaiveRounds(calcs, s, n)
    decreases n
  {
    if n > 0 {
      var news := RunAffected(calcs, s, changed);
      NaiveFollows(calcs, fps, s, changed, n);
      if news != [] {
        RoundKeepsInvariant(calcs, fps, s, changed);
        RefinesNaive(calcs, fps, Write(s, news), PathsOf(news), n - 1);
      }
    }
  }

  lemma CallbackRefinesNaive(calcs: seq<Calculator>, fps: seq<Footprint>, s: Snapshot, updates: seq<Update>)
    requires WellBehaved(calcs, fps) && AllConsistent(calcs, s) && WritesNoOutput(Incoming(updates), fps)
    ensures Callback(calcs, s, updates).0 == NaiveRounds(calcs, Write(s, Incoming(updates)), MAX_ITERATIONS)
  {
    var pvs := Incoming(updates);
    IncomingKeepsInvariant(calcs, fps, s, pvs);
    RefinesNaive(calcs, fps, Write(s, pvs), PathsOf(pvs), MAX_ITERATIONS);
  }
}
