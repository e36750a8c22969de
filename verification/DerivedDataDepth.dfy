/** The registered pair of calculators that both write the depth below the keel
    (crates/plugins/derived-data/src/calculators/depth_below_keel.rs, transducer_to_keel.rs). */
module DerivedDataDepth {
  import opened Basics
  import opened JsonModel
  import opened DerivedData
  import opened DerivedDataPairs
  import opened Deltas

  const BELOW_TRANSDUCER := "environment.depth.belowTransducer"
  const SURFACE_TO_TRANSDUCER := "environment.depth.surfaceToTransducer"
  const DRAFT := "design.draft.value.current"
  const TO_KEEL := "environment.depth.transducerToKeel"
  const BELOW_KEEL := "environment.depth.belowKeel"

  function OrZero(x: Option<real>): real {
    if x.Some? then x.value else 0.0
  }

  /** Without an offset the transducer counts as mounted at the keel. */
  function DepthBelowKeel(): Calculator {
    Calculator("depthBelowKeel", [BELOW_TRANSDUCER, TO_KEEL],
               (s: Snapshot) => match NumberAt(s, BELOW_TRANSDUCER)
                                case Some(bt) => Some([PathValue(BELOW_KEEL, Num(bt - OrZero(NumberAt(s, TO_KEEL))))])
                                case None => None)
  }

  function TransducerToKeel(): Calculator {
    Calculator("transducerToKeel", [BELOW_TRANSDUCER, SURFACE_TO_TRANSDUCER, DRAFT],
               (s: Snapshot) => match (NumberAt(s, BELOW_TRANSDUCER), NumberAt(s, SURFACE_TO_TRANSDUCER), NumberAt(s, DRAFT))
                                case (Some(bt), Some(st), Some(dr)) =>
                                  Some([PathValue(TO_KEEL, Num(dr - st)), PathValue(BELOW_KEEL, Num(bt - (dr - st)))])
                                case _ => None)
  }

  function Pair(): seq<Calculator> {
    [DepthBelowKeel(), TransducerToKeel()]
  }

  /** The calculators write the same path, so no footprints make them well-behaved in
      the sense of the general fixpoint theorem. */
  lemma WritersOverlap(f: Footprint, g: Footprint)
    requires Honest(DepthBelowKeel(), f) && Honest(TransducerToKeel(), g)
    ensures !(f.writeSet !! g.writeSet)
  {
    var s: Snapshot := map[BELOW_TRANSDUCER := Num(1.0), SURFACE_TO_TRANSDUCER := Num(0.0), DRAFT := Num(0.0)];
    PathsDiffer();
    var a, b := Outputs(DepthBelowKeel(), s), Outputs(TransducerToKeel(), s);
    assert PathsOf(a)[0] == BELOW_KEEL && PathsOf(b)[1] == BELOW_KEEL;
    assert BELOW_KEEL in f.writeSet && BELOW_KEEL in g.writeSet;
  }

  lemma PathsDiffer()
    ensures !PathMatchesInput(TO_KEEL, BELOW_TRANSDUCER) && !PathMatchesInput(TO_KEEL, SURFACE_TO_TRANSDUCER) && !PathMatchesInput(TO_KEEL, DRAFT)
    ensures !PathMatchesInput(BELOW_KEEL, BELOW_TRANSDUCER) && !PathMatchesInput(BELOW_KEEL, SURFACE_TO_TRANSDUCER) && !PathMatchesInput(BELOW_KEEL, DRAFT)
    ensures !PathMatchesInput(BELOW_KEEL, TO_KEEL) && BELOW_KEEL != TO_KEEL
    ensures BELOW_TRANSDUCER != SURFACE_TO_TRANSDUCER && BELOW_TRANSDUCER != DRAFT && SURFACE_TO_TRANSDUCER != DRAFT
    ensures BELOW_TRANSDUCER !in {TO_KEEL, BELOW_KEEL} && SURFACE_TO_TRANSDUCER !in {TO_KEEL, BELOW_KEEL} && DRAFT !in {TO_KEEL, BELOW_KEEL}
  {
    assert BELOW_TRANSDUCER[18] == 'b' && BELOW_TRANSDUCER[23] == 'T' && SURFACE_TO_TRANSDUCER[18] == 's' && DRAFT[0] == 'd';
    assert TO_KEEL[18] == 't' && BELOW_KEEL[18] == 'b' && BELOW_KEEL[23] == 'K' && BELOW_KEEL[0] == 'e' && TO_KEEL[0] == 'e';
    assert (BELOW_TRANSDUCER + ".")[18] == 'b' && (BELOW_TRANSDUCER + ".")[23] == 'T' && (SURFACE_TO_TRANSDUCER + ".")[18] == 's';
    assert (DRAFT + ".")[0] == 'd' && (TO_KEEL + ".")[18] == 't';
  }

  // ----- the five numbers the pair looks at -----

  datatype View = View(bt: Option<real>, st: Option<real>, dr: Option<real>, toKeel: Option<real>, belowKeel: Option<real>)

  function ViewOf(s: Snapshot): View {
    View(NumberAt(s, BELOW_TRANSDUCER), NumberAt(s, SURFACE_TO_TRANSDUCER), NumberAt(s, DRAFT), NumberAt(s, TO_KEEL), NumberAt(s, BELOW_KEEL))
  }

  /** What the first calculator derives. */
  function Simple(w: View): Option<real> {
    if w.bt.Some? then Some(w.bt.value - OrZero(w.toKeel)) else None
  }

  /** The offset and the depth the second calculator derives. */
  function Offset(w: View): Option<real> {
    if w.bt.Some? && w.st.Some? && w.dr.Some? then Some(w.dr.value - w.st.value) else None
  }

  function Exact(w: View): Option<real> {
    if Offset(w).Some? then Some(w.bt.value - Offset(w).value) else None
  }

  predicate SimpleFits(w: View) {
    Simple(w).Some? ==> w.belowKeel == Simple(w)
  }

  predicate ExactFits(w: View) {
    Offset(w).Some? ==> w.toKeel == Offset(w) && w.belowKeel == Exact(w)
  }

  function AfterRound(w: View, first: bool, second: bool): View {
    if second && Offset(w).Some? then w.(toKeel := Offset(w), belowKeel := Exact(w))
    else if first && Simple(w).Some? then w.(belowKeel := Simple(w))
    else w
  }

  /** The writers overlap, but agree as soon as the second has run: one round is enough. */
  lemma OneRoundFits(w: View, first: bool, second: bool)
    requires first || SimpleFits(w)
    requires second || ExactFits(w)
    ensures var w' := AfterRound(w, first, second); SimpleFits(w') && ExactFits(w')
  {}

  lemma FitIsIdle(w: View, first: bool, second: bool)
    requires SimpleFits(w) && ExactFits(w)
    ensures AfterRound(w, first, second) == w
  {}

  // ----- the callback, seen through the view -----

  /** The values a round derives: the second calculator's come last. */
  function News(w: View, first: bool, second: bool): seq<PathValue> {
    (if first then Entry(BELOW_KEEL, Simple(w)) else [])
    + (if second then Entry(TO_KEEL, Offset(w)) + Entry(BELOW_KEEL, Exact(w)) else [])
  }

  lemma PairOutputs(s: Snapshot)
    ensures Outputs(DepthBelowKeel(), s) == Entry(BELOW_KEEL, Simple(ViewOf(s)))
    ensures Outputs(TransducerToKeel(), s) == Entry(TO_KEEL, Offset(ViewOf(s))) + Entry(BELOW_KEEL, Exact(ViewOf(s)))
  {}

  lemma NewsLast(w: View, first: bool, second: bool, p: string)
    ensures Last(News(w, first, second), p)
         == if p == TO_KEEL && second && Offset(w).Some? then Some(Num(Offset(w).value))
            else if p == BELOW_KEEL && second && Offset(w).Some? then Some(Num(Exact(w).value))
            else if p == BELOW_KEEL && first && Simple(w).Some? then Some(Num(Simple(w).value))
            else None
  {
    PathsDiffer();
    var a, b := Entry(TO_KEEL, Offset(w)), Entry(BELOW_KEEL, Exact(w));
    LastOfConcat(if first then Entry(BELOW_KEEL, Simple(w)) else [], if second then a + b else [], p);
    LastOfConcat(a, b, p);
    LastOfEntry(TO_KEEL, Offset(w), p);
    LastOfEntry(BELOW_KEEL, Exact(w), p);
    LastOfEntry(BELOW_KEEL, Simple(w), p);
  }

  lemma NumberAfter(s: Snapshot, first: bool, second: bool, p: string)
    ensures var w := ViewOf(s);
            NumberAt(Write(s, News(w, first, second)), p)
            == if p == TO_KEEL && second && Offset(w).Some? then Offset(w)
               else if p == BELOW_KEEL && second && Offset(w).Some? then Exact(w)
               else if p == BELOW_KEEL && first && Simple(w).Some? then Simple(w)
               else NumberAt(s, p)
  {
    var news := News(ViewOf(s), first, second);
    NewsLast(ViewOf(s), first, second, p);
    WriteLookup(s, news, p);
    NumberOfGet(Write(s, news), p);
    NumberOfGet(s, p);
  }

  lemma RoundView(s: Snapshot, changed: seq<string>)
    ensures var news := RunAffected(Pair(), s, changed);
            ViewOf(Write(s, news)) == AfterRound(ViewOf(s), Affected(DepthBelowKeel(), changed), Affected(TransducerToKeel(), changed))
  {
    var first, second := Affected(DepthBelowKeel(), changed), Affected(TransducerToKeel(), changed);
    TwoRun(DepthBelowKeel(), TransducerToKeel(), s, changed);
    PairOutputs(s);
    assert RunAffected(Pair(), s, changed) == News(ViewOf(s), first, second);
    PathsDiffer();
    NumberAfter(s, first, second, BELOW_TRANSDUCER);
    NumberAfter(s, first, second, SURFACE_TO_TRANSDUCER);
    NumberAfter(s, first, second, DRAFT);
    NumberAfter(s, first, second, TO_KEEL);
    NumberAfter(s, first, second, BELOW_KEEL);
  }

  lemma {:induction false} FittingRounds(s: Snapshot, changed: seq<string>, n: nat)
    requires SimpleFits(ViewOf(s)) && ExactFits(ViewOf(s))
    ensures ViewOf(Rounds(Pair(), s, changed, n).0) == ViewOf(s)
    decreases n
  {
    if n > 0 {
      RoundView(s, changed);
      FitIsIdle(ViewOf(s), Affected(DepthBelowKeel(), changed), Affected(TransducerToKeel(), changed));
      RoundsUnfold(Pair(), s, changed, n);
      var news := RunAffected(Pair(), s, changed);
      if news != [] {
        FittingRounds(Write(s, news), PathsOf(news), n - 1);
      }
    }
  }

  lemma ExactIsIdle(s: Snapshot)
    ensures Consistent(TransducerToKeel(), s) <==> ExactFits(ViewOf(s))
  {
    var w := ViewOf(s);
    var a, b := Entry(TO_KEEL, Offset(w)), Entry(BELOW_KEEL, Exact(w));
    PairOutputs(s);
    PathsDiffer();
    if Offset(w).Some? {
      assert a + b == [PathValue(TO_KEEL, Num(Offset(w).value)), PathValue(BELOW_KEEL, Num(Exact(w).value))];
      assert (a + b)[..1] == a && a[..0] == [];
      assert Write(s, a) == s[TO_KEEL := Num(Offset(w).value)];
      assert Write(s, a + b) == s[TO_KEEL := Num(Offset(w).value)][BELOW_KEEL := Num(Exact(w).value)];
    }
  }

  lemma ConsistentIffFits(s: Snapshot)
    ensures AllConsistent(Pair(), s) <==> SimpleFits(ViewOf(s)) && ExactFits(ViewOf(s))
  {
    PairOutputs(s);
    EntryIsIdle(s, BELOW_KEEL, Simple(ViewOf(s)));
    ExactIsIdle(s);
    var calcs := Pair();
    assert AllConsistent(calcs, s) <==> Consistent(calcs[0], s) && Consistent(calcs[1], s);
  }

  // ----- runs -----

  predicate WritesNeither(pvs: seq<PathValue>) {
    TO_KEEL !in PathsOf(pvs) && BELOW_KEEL !in PathsOf(pvs)
  }

  lemma UnwrittenStays(s: Snapshot, pvs: seq<PathValue>, p: string)
    requires p !in PathsOf(pvs)
    ensures NumberAt(Write(s, pvs), p) == NumberAt(s, p)
  {
    WriteLookup(s, pvs, p);
    NumberOfGet(Write(s, pvs), p);
    NumberOfGet(s, p);
  }

  lemma UnaffectedInput(c: Calculator, i: nat, pvs: seq<PathValue>)
    requires i < |c.inputs| && !Affected(c, PathsOf(pvs))
    ensures c.inputs[i] !in PathsOf(pvs)
  {
    assert PathMatchesInput(c.inputs[i], c.inputs[i]);
    AffectedByMember(c, PathsOf(pvs));
    assert InputMatches(c, c.inputs[i]);
  }

  /** What a delta does not touch still fits. */
  lemma IncomingFits(s: Snapshot, pvs: seq<PathValue>)
    requires SimpleFits(ViewOf(s)) && ExactFits(ViewOf(s)) && WritesNeither(pvs)
    ensures Affected(DepthBelowKeel(), PathsOf(pvs)) || SimpleFits(ViewOf(Write(s, pvs)))
    ensures Affected(TransducerToKeel(), PathsOf(pvs)) || ExactFits(ViewOf(Write(s, pvs)))
  {
    UnwrittenStays(s, pvs, TO_KEEL);
    UnwrittenStays(s, pvs, BELOW_KEEL);
    if !Affected(DepthBelowKeel(), PathsOf(pvs)) {
      UnaffectedInput(DepthBelowKeel(), 0, pvs);
      UnwrittenStays(s, pvs, BELOW_TRANSDUCER);
    }
    if !Affected(TransducerToKeel(), PathsOf(pvs)) {
      UnaffectedInput(TransducerToKeel(), 0, pvs);
      UnaffectedInput(TransducerToKeel(), 1, pvs);
      UnaffectedInput(TransducerToKeel(), 2, pvs);
      UnwrittenStays(s, pvs, BELOW_TRANSDUCER);
      UnwrittenStays(s, pvs, SURFACE_TO_TRANSDUCER);
      UnwrittenStays(s, pvs, DRAFT);
    }
  }

  lemma PairCallback(s: Snapshot, updates: seq<Update>)
    requires AllConsistent(Pair(), s) && WritesNeither(Incoming(updates))
    ensures AllConsistent(Pair(), Callback(Pair(), s, updates).0)
  {
    var pvs := Incoming(updates);
    var s1, changed := Write(s, pvs), PathsOf(pvs);
    ConsistentIffFits(s);
    IncomingFits(s, pvs);
    RoundView(s1, changed);
    OneRoundFits(ViewOf(s1), Affected(DepthBelowKeel(), changed), Affected(TransducerToKeel(), changed));
    var news := RunAffected(Pair(), s1, changed);
    RoundsUnfold(Pair(), s1, changed, MAX_ITERATIONS);
    if news != [] {
      FittingRounds(Write(s1, news), PathsOf(news), MAX_ITERATIONS - 1);
    } else {
      assert Write(s1, news) == s1;
    }
    ConsistentIffFits(Callback(Pair(), s, updates).0);
  }

  /** Main result: although both calculators write the depth below the keel, every run of
      deltas that write neither of their outputs leaves a fixpoint. */
  lemma {:induction false} DepthPairReachesFixpoint(deltas: seq<seq<Update>>)
    requires forall k :: 0 <= k < |deltas| ==> WritesNeither(Incoming(deltas[k]))
    ensures AllConsistent(Pair(), Run(Pair(), map[], deltas))
  {
    if deltas == [] {
      ConsistentIffFits(map[]);
    } else {
      var n := |deltas| - 1;
      DepthPairReachesFixpoint(deltas[..n]);
      PairCallback(Run(Pair(), map[], deltas[..n]), deltas[n]);
    }
  }
}
