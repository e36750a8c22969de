/** The registered pair of calculators that derive course over ground, true and
    magnetic, from each other (crates/plugins/derived-data/src/calculators). */
module DerivedDataCourses {
  import opened Basics
  import opened JsonModel
  import opened DerivedData
  import opened DerivedDataPairs
  import opened Deltas
  import opened Angles

  const COG_TRUE := "navigation.courseOverGroundTrue"
  const COG_MAGNETIC := "navigation.courseOverGroundMagnetic"
  const VARIATION := "navigation.magneticVariation"

  function CogMagnetic(): Calculator {
    Calculator("courseOverGroundMagnetic", [COG_TRUE, VARIATION],
               (s: Snapshot) => match (NumberAt(s, COG_TRUE), NumberAt(s, VARIATION))
                                case (Some(t), Some(v)) => Some([PathValue(COG_MAGNETIC, Num(RemEuclid(t - v)))])
                                case _ => None)
  }

  function CogTrue(): Calculator {
    Calculator("courseOverGroundTrue", [COG_MAGNETIC, VARIATION],
               (s: Snapshot) => match (NumberAt(s, COG_MAGNETIC), NumberAt(s, VARIATION))
                                case (Some(m), Some(v)) => Some([PathValue(COG_TRUE, Num(RemEuclid(m + v)))])
                                case _ => None)
  }

  function Pair(): seq<Calculator> {
    [CogMagnetic(), CogTrue()]
  }

  // ----- the three numbers the pair looks at -----

  datatype View = View(t: Option<real>, m: Option<real>, v: Option<real>)

  function ViewOf(s: Snapshot): View {
    View(NumberAt(s, COG_TRUE), NumberAt(s, COG_MAGNETIC), NumberAt(s, VARIATION))
  }

  /** What each calculator derives; nothing while an input is missing. */
  function FromTrue(w: View): Option<real> {
    if w.t.Some? && w.v.Some? then Some(RemEuclid(w.t.value - w.v.value)) else None
  }

  function FromMagnetic(w: View): Option<real> {
    if w.m.Some? && w.v.Some? then Some(RemEuclid(w.m.value + w.v.value)) else None
  }

  /** Neither calculator would change anything. */
  predicate Fits(w: View) {
    (FromTrue(w).Some? ==> w.m == FromTrue(w)) && (FromMagnetic(w).Some? ==> w.t == FromMagnetic(w))
  }

  function OrElse(x: Option<real>, y: Option<real>): Option<real> {
    if x.Some? then x else y
  }

  /** What one round derives: from the true course if the first calculator is
      affected, from the magnetic one if the second is. */
  function NewMagnetic(w: View, first: bool): Option<real> {
    if first then FromTrue(w) else None
  }

  function NewTrue(w: View, second: bool): Option<real> {
    if second then FromMagnetic(w) else None
  }

  function AfterRound(w: View, first: bool, second: bool): View {
    View(OrElse(NewTrue(w, second), w.t), OrElse(NewMagnetic(w, first), w.m), w.v)
  }

  function ViewRounds(w: View, first: bool, second: bool, n: nat): View
    decreases n
  {
    if n == 0 || (NewMagnetic(w, first).None? && NewTrue(w, second).None?) then w
    else ViewRounds(AfterRound(w, first, second), NewTrue(w, second).Some?, NewMagnetic(w, first).Some?, n - 1)
  }

  // ----- the callback, seen through the view -----

  lemma PathsDiffer()
    ensures COG_TRUE != COG_MAGNETIC && COG_TRUE != VARIATION && COG_MAGNETIC != VARIATION
    ensures !PathMatchesInput(COG_TRUE, COG_MAGNETIC) && !PathMatchesInput(COG_TRUE, VARIATION)
    ensures !PathMatchesInput(COG_MAGNETIC, COG_TRUE) && !PathMatchesInput(COG_MAGNETIC, VARIATION)
  {
    assert COG_TRUE[27] == 'T' && COG_MAGNETIC[27] == 'M' && COG_TRUE[11] == 'c' && COG_MAGNETIC[11] == 'c' && VARIATION[11] == 'm';
    assert (COG_TRUE + ".")[27] == 'T' && (COG_MAGNETIC + ".")[27] == 'M' && (VARIATION + ".")[11] == 'm';
  }

  lemma PairOutputs(s: Snapshot)
    ensures Outputs(CogMagnetic(), s) == Entry(COG_MAGNETIC, FromTrue(ViewOf(s)))
    ensures Outputs(CogTrue(), s) == Entry(COG_TRUE, FromMagnetic(ViewOf(s)))
  {}

  /** Writing at most one value at each course. */
  lemma CourseLookup(s: Snapshot, m: Option<real>, t: Option<real>, p: string)
    ensures var news := Entry(COG_MAGNETIC, m) + Entry(COG_TRUE, t);
            && Get(Write(s, news), p) == (if p == COG_TRUE && t.Some? then Some(Num(t.value))
                                          else if p == COG_MAGNETIC && m.Some? then Some(Num(m.value)) else Get(s, p))
            && (p in PathsOf(news) <==> (p == COG_TRUE && t.Some?) || (p == COG_MAGNETIC && m.Some?))
  {
    PathsDiffer();
    LastOfConcat(Entry(COG_MAGNETIC, m), Entry(COG_TRUE, t), p);
    LastOfEntry(COG_MAGNETIC, m, p);
    LastOfEntry(COG_TRUE, t, p);
    WriteLookup(s, Entry(COG_MAGNETIC, m) + Entry(COG_TRUE, t), p);
  }

  lemma NumberAfter(s: Snapshot, m: Option<real>, t: Option<real>, p: string)
    ensures NumberAt(Write(s, Entry(COG_MAGNETIC, m) + Entry(COG_TRUE, t)), p)
         == if p == COG_TRUE then OrElse(t, NumberAt(s, p)) else if p == COG_MAGNETIC then OrElse(m, NumberAt(s, p)) else NumberAt(s, p)
  {
    CourseLookup(s, m, t, p);
    NumberOfGet(Write(s, Entry(COG_MAGNETIC, m) + Entry(COG_TRUE, t)), p);
    NumberOfGet(s, p);
    PathsDiffer();
  }

  lemma CourseView(s: Snapshot, m: Option<real>, t: Option<real>)
    ensures ViewOf(Write(s, Entry(COG_MAGNETIC, m) + Entry(COG_TRUE, t)))
         == View(OrElse(t, NumberAt(s, COG_TRUE)), OrElse(m, NumberAt(s, COG_MAGNETIC)), NumberAt(s, VARIATION))
  {
    PathsDiffer();
    NumberAfter(s, m, t, COG_TRUE);
    NumberAfter(s, m, t, COG_MAGNETIC);
    NumberAfter(s, m, t, VARIATION);
  }

  lemma CoursePaths(s: Snapshot, m: Option<real>, t: Option<real>)
    ensures var news := Entry(COG_MAGNETIC, m) + Entry(COG_TRUE, t);
            && (COG_MAGNETIC in PathsOf(news) <==> m.Some?) && (COG_TRUE in PathsOf(news) <==> t.Some?)
            && (forall p <- PathsOf(news) :: p == COG_MAGNETIC || p == COG_TRUE)
            && (news == [] <==> m.None? && t.None?)
  {
    PathsDiffer();
    var news := Entry(COG_MAGNETIC, m) + Entry(COG_TRUE, t);
    forall p ensures p in PathsOf(news) <==> (p == COG_TRUE && t.Some?) || (p == COG_MAGNETIC && m.Some?) {
      CourseLookup(s, m, t, p);
    }
    assert |news| == |Entry(COG_MAGNETIC, m)| + |Entry(COG_TRUE, t)|;
  }

  lemma CourseInputs()
    ensures InputMatches(CogMagnetic(), COG_TRUE) && !InputMatches(CogMagnetic(), COG_MAGNETIC)
    ensures InputMatches(CogTrue(), COG_MAGNETIC) && !InputMatches(CogTrue(), COG_TRUE)
    ensures InputMatches(CogMagnetic(), VARIATION) && InputMatches(CogTrue(), VARIATION)
  {
    PathsDiffer();
    assert PathMatchesInput(COG_TRUE, CogMagnetic().inputs[0]) && PathMatchesInput(COG_MAGNETIC, CogTrue().inputs[0]);
    assert PathMatchesInput(VARIATION, CogMagnetic().inputs[1]) && PathMatchesInput(VARIATION, CogTrue().inputs[1]);
  }

  /** Which calculator the new values of a round affect. */
  lemma CourseAffects(changed: seq<string>)
    requires forall p <- changed :: p == COG_MAGNETIC || p == COG_TRUE
    ensures Affected(CogMagnetic(), changed) <==> COG_TRUE in changed
    ensures Affected(CogTrue(), changed) <==> COG_MAGNETIC in changed
  {
    CourseInputs();
    AffectedByMember(CogMagnetic(), changed);
    AffectedByMember(CogTrue(), changed);
  }

  /** Which of the two calculators changed paths affect. */
  datatype Flags = Flags(first: bool, second: bool)

  function AffectedBy(changed: seq<string>): Flags {
    Flags(Affected(CogMagnetic(), changed), Affected(CogTrue(), changed))
  }

  lemma RoundView(s: Snapshot, changed: seq<string>, f: Flags)
    requires f == AffectedBy(changed)
    ensures var news, w := RunAffected(Pair(), s, changed), ViewOf(s);
            && ViewOf(Write(s, news)) == AfterRound(w, f.first, f.second)
            && AffectedBy(PathsOf(news)) == Flags(NewTrue(w, f.second).Some?, NewMagnetic(w, f.first).Some?)
            && (news == [] <==> NewMagnetic(w, f.first).None? && NewTrue(w, f.second).None?)
  {
    var w := ViewOf(s);
    TwoRun(CogMagnetic(), CogTrue(), s, changed);
    PairOutputs(s);
    CourseView(s, NewMagnetic(w, f.first), NewTrue(w, f.second));
    CoursePaths(s, NewMagnetic(w, f.first), NewTrue(w, f.second));
    CourseAffects(PathsOf(RunAffected(Pair(), s, changed)));
  }

  /** `w` and `f` are what the pair sees of a snapshot and of the changed paths. */
  predicate Seen(s: Snapshot, changed: seq<string>, w: View, f: Flags) {
    w == ViewOf(s) && f == AffectedBy(changed)
  }

  function FlagsAfter(w: View, f: Flags): Flags {
    Flags(NewTrue(w, f.second).Some?, NewMagnetic(w, f.first).Some?)
  }

  lemma RoundSeen(s: Snapshot, changed: seq<string>, w: View, f: Flags)
    requires Seen(s, changed, w, f)
    ensures var news := RunAffected(Pair(), s, changed);
            && Seen(Write(s, news), PathsOf(news), AfterRound(w, f.first, f.second), FlagsAfter(w, f))
            && (news == [] <==> FlagsAfter(w, f) == Flags(false, false))
  {
    RoundView(s, changed, f);
  }

  /** The rounds of any calculators, given what one round does to a view of the
      snapshot and the changed paths. */
  lemma {:induction false} RoundsFollow(calcs: seq<Calculator>, seen: (Snapshot, seq<string>, View, Flags) -> bool,
                                        s: Snapshot, changed: seq<string>, w: View, f: Flags, n: nat) returns (s': Snapshot, changed': seq<string>, f': Flags)
    requires forall s, changed, w, f :: seen(s, changed, w, f) ==>
      var news := RunAffected(calcs, s, changed);
      && seen(Write(s, news), PathsOf(news), AfterRound(w, f.first, f.second), FlagsAfter(w, f))
      && (news == [] <==> FlagsAfter(w, f) == Flags(false, false))
    requires seen(s, changed, w, f)
    ensures s' == Rounds(calcs, s, changed, n).0 && seen(s', changed', ViewRounds(w, f.first, f.second, n), f')
    decreases n
  {
    s', changed', f' := s, changed, f;
    if n > 0 {
      var news := RunAffected(calcs, s, changed);
      if news != [] {
        s', changed', f' := RoundsFollow(calcs, seen, Write(s, news), PathsOf(news), AfterRound(w, f.first, f.second), FlagsAfter(w, f), n - 1);
      }
    }
  }

  lemma RoundsView(s: Snapshot, changed: seq<string>, w: View, f: Flags, n: nat)
    requires Seen(s, changed, w, f)
    ensures ViewOf(Rounds(Pair(), s, changed, n).0) == ViewRounds(w, f.first, f.second, n)
  {
    forall s, changed, w, f | Seen(s, changed, w, f)
      ensures var news := RunAffected(Pair(), s, changed);
              && Seen(Write(s, news), PathsOf(news), AfterRound(w, f.first, f.second), FlagsAfter(w, f))
              && (news == [] <==> FlagsAfter(w, f) == Flags(false, false)) {
      RoundSeen(s, changed, w, f);
    }
    var s', changed', f' := RoundsFollow(Pair(), Seen, s, changed, w, f, n);
  }

  lemma ConsistentIffFits(s: Snapshot)
    ensures AllConsistent(Pair(), s) <==> Fits(ViewOf(s))
  {
    PairOutputs(s);
    EntryIsIdle(s, COG_MAGNETIC, FromTrue(ViewOf(s)));
    EntryIsIdle(s, COG_TRUE, FromMagnetic(ViewOf(s)));
    var calcs := Pair();
    assert AllConsistent(calcs, s) <==> Consistent(calcs[0], s) && Consistent(calcs[1], s);
  }

  // ----- when the rounds settle -----

  /** Recomputing twice normalises a course and nothing else. */
  lemma CogTwice(t: real, m: real, v: real)
    ensures RemEuclid(RemEuclid(t - v) + v) == RemEuclid(t) && RemEuclid(RemEuclid(m + v) - v) == RemEuclid(m)
    ensures RemEuclid(RemEuclid(m) + v) == RemEuclid(m + v) && RemEuclid(RemEuclid(t) - v) == RemEuclid(t - v)
  {
    RemEuclidAdd(t - v, v);
    RemEuclidAdd(m + v, -v);
    RemEuclidAdd(t, -v);
    RemEuclidAdd(m, v);
  }

  lemma {:induction false} FitIsStable(w: View, first: bool, second: bool, n: nat)
    requires Fits(w)
    ensures ViewRounds(w, first, second, n) == w
    decreases n
  {
    if n > 0 && !(NewMagnetic(w, first).None? && NewTrue(w, second).None?) {
      assert AfterRound(w, first, second) == w;
      FitIsStable(w, NewTrue(w, second).Some?, NewMagnetic(w, first).Some?, n - 1);
    }
  }

  /** The magnetic course is recomputed, the true one follows, and both fit. */
  lemma MagneticFirst(t: real, m: Option<real>, v: real, second: bool, n: nat)
    requires n >= 2 && !(second && m.Some?)
    ensures Fits(ViewRounds(View(Some(t), m, Some(v)), true, second, n))
  {
    var w := View(Some(t), m, Some(v));
    var w1 := View(Some(t), Some(RemEuclid(t - v)), Some(v));
    var w2 := View(Some(RemEuclid(t)), Some(RemEuclid(t - v)), Some(v));
    CogTwice(t, t, v);
    assert AfterRound(w, true, second) == w1 && AfterRound(w1, false, true) == w2;
    assert ViewRounds(w, true, second, n) == ViewRounds(w1, false, true, n - 1) == ViewRounds(w2, true, false, n - 2);
    FitIsStable(w2, true, false, n - 2);
  }

  /** The same with the courses exchanged. */
  lemma TrueFirst(t: Option<real>, m: real, v: real, first: bool, n: nat)
    requires n >= 2 && !(first && t.Some?)
    ensures Fits(ViewRounds(View(t, Some(m), Some(v)), first, true, n))
  {
    var w := View(t, Some(m), Some(v));
    var w1 := View(Some(RemEuclid(m + v)), Some(m), Some(v));
    var w2 := View(Some(RemEuclid(m + v)), Some(RemEuclid(m)), Some(v));
    CogTwice(m, m, v);
    assert AfterRound(w, first, true) == w1 && AfterRound(w1, true, false) == w2;
    assert ViewRounds(w, first, true, n) == ViewRounds(w1, true, false, n - 1) == ViewRounds(w2, false, true, n - 2);
    FitIsStable(w2, false, true, n - 2);
  }

  /** If both are recomputed they keep changing places. */
  lemma {:induction false} BothCoursesSwap(t: real, m: real, v: real, n: nat)
    requires n % 2 == 1
    ensures ViewRounds(View(Some(t), Some(m), Some(v)), true, true, n)
         == View(Some(RemEuclid(m + v)), Some(RemEuclid(t - v)), Some(v))
    decreases n
  {
    var w1 := View(Some(RemEuclid(m + v)), Some(RemEuclid(t - v)), Some(v));
    assert AfterRound(View(Some(t), Some(m), Some(v)), true, true) == w1;
    if n > 1 {
      CogTwice(t, m, v);
      var w2 := View(Some(RemEuclid(t)), Some(RemEuclid(m)), Some(v));
      assert AfterRound(w1, true, true) == w2;
      BothCoursesSwap(RemEuclid(t), RemEuclid(m), v, n - 2);
      assert ViewRounds(View(Some(t), Some(m), Some(v)), true, true, n) == ViewRounds(w2, true, true, n - 2);
    }
  }

  lemma SwappedFitIffCongruent(t: real, m: real, v: real)
    ensures Fits(View(Some(RemEuclid(m + v)), Some(RemEuclid(t - v)), Some(v))) <==> Congruent(m, t - v)
  {
    CogTwice(t, m, v);
    RemEuclidCongruent(m, t - v);
    if RemEuclid(t - v) == RemEuclid(m) {
      RemEuclidAdd(m, v);
      RemEuclidAdd(t - v, v);
    }
  }

  /** The condition, read off the snapshot once the incoming values are written:
      without a variation nothing is derived; of two known courses both recomputed
      must differ by the variation; a single one must be recomputed from. */
  ghost predicate Settles(w: View, first: bool, second: bool) {
    w.v.None?
    || match (w.t, w.m)
       case (None, None) => true
       case (Some(_), None) => first
       case (None, Some(_)) => second
       case (Some(t), Some(m)) => if first && second then Congruent(m, t - w.v.value) else first || second || Fits(w)
  }

  lemma RoundsSettleIff(w: View, first: bool, second: bool)
    ensures Fits(ViewRounds(w, first, second, MAX_ITERATIONS)) <==> Settles(w, first, second)
  {
    if NewMagnetic(w, first).None? && NewTrue(w, second).None? {
      assert ViewRounds(w, first, second, MAX_ITERATIONS) == w;
    } else if NewMagnetic(w, first).Some? && NewTrue(w, second).Some? {
      BothCoursesSwap(w.t.value, w.m.value, w.v.value, MAX_ITERATIONS);
      SwappedFitIffCongruent(w.t.value, w.m.value, w.v.value);
    } else if NewMagnetic(w, first).Some? {
      MagneticFirst(w.t.value, w.m, w.v.value, second, MAX_ITERATIONS);
    } else {
      TrueFirst(w.t, w.m.value, w.v.value, first, MAX_ITERATIONS);
    }
  }

  /** Main result, for every snapshot and every delta: the callback of the pair ends in a
      fixpoint exactly under the condition above. In particular it oscillates whenever
      both calculators are affected, be it by both courses or by the variation alone,
      and the two courses do not differ by the variation. */
  lemma CogPairFixpointIffInputsAgree(s: Snapshot, updates: seq<Update>)
    ensures var pvs := Incoming(updates);
            AllConsistent(Pair(), Callback(Pair(), s, updates).0)
            <==> Settles(ViewOf(Write(s, pvs)), Affected(CogMagnetic(), PathsOf(pvs)), Affected(CogTrue(), PathsOf(pvs)))
  {
    var pvs := Incoming(updates);
    var f := AffectedBy(PathsOf(pvs));
    RoundsView(Write(s, pvs), PathsOf(pvs), ViewOf(Write(s, pvs)), f, MAX_ITERATIONS);
    ConsistentIffFits(Callback(Pair(), s, updates).0);
    RoundsSettleIff(ViewOf(Write(s, pvs)), f.first, f.second);
  }

  function VariationAlone(src: Source, v: real): seq<Update> {
    [Update(src, 0, [PathValue(VARIATION, Num(v))])]
  }

  lemma VariationSeen(s: Snapshot, src: Source, v: real)
    requires src.sourceLabel != OWN_LABEL
    ensures var pvs := Incoming(VariationAlone(src, v));
            && ViewOf(Write(s, pvs)) == ViewOf(s).(v := Some(v)) && AffectedBy(PathsOf(pvs)) == Flags(true, true)
  {
    var u := VariationAlone(src, v)[0];
    assert [u][..0] == [] && Incoming([u]) == u.values && u.values[..0] == [];
    PathsDiffer();
    CourseInputs();
    assert Write(s, u.values) == s[VARIATION := Num(v)];
    assert PathsOf(u.values)[0] == VARIATION;
  }

  lemma BothAffectedIff(s: Snapshot, updates: seq<Update>, w: View)
    requires var pvs := Incoming(updates); ViewOf(Write(s, pvs)) == w && AffectedBy(PathsOf(pvs)) == Flags(true, true)
    requires w.t.Some? && w.m.Some? && w.v.Some?
    ensures AllConsistent(Pair(), Callback(Pair(), s, updates).0) <==> Congruent(w.m.value, w.t.value - w.v.value)
  {
    CogPairFixpointIffInputsAgree(s, updates);
  }

  /** The variation alone, over two known courses. */
  lemma VariationAloneOscillatesIff(s: Snapshot, src: Source, v: real)
    requires src.sourceLabel != OWN_LABEL && ViewOf(s).t.Some? && ViewOf(s).m.Some?
    ensures !AllConsistent(Pair(), Callback(Pair(), s, VariationAlone(src, v)).0)
            <==> !Congruent(ViewOf(s).m.value, ViewOf(s).t.value - v)
  {
    VariationSeen(s, src, v);
    BothAffectedIff(s, VariationAlone(src, v), ViewOf(s).(v := Some(v)));
  }
}
