/** Which deltas reach the derived-data plugin at all: the host delivers a delta only if
    one of its paths matches a subscribed pattern, and the plugin subscribes its inputs as
    they are (crates/signalk-server/src/plugins/host.rs, crates/plugins/derived-data/src/lib.rs). */
module DerivedDataDelivery {
  import opened Basics
  import opened JsonModel
  import opened Deltas
  import opened DerivedData
  import Paths

  const SELF := "vessels.self"

  /** The pattern the plugin subscribes for an input. */
  datatype Subscribed = AsIs | WithSuffix

  function PatternOf(how: Subscribed, input: string): string {
    if how == AsIs then input else input + ".**"
  }

  ghost predicate ForSelf(d: Delta) {
    d.context == None || d.context == Some(SELF)
  }

  ghost predicate Declared(calcs: seq<Calculator>, input: string) {
    exists c <- calcs :: input in c.inputs
  }

  ghost predicate Carries(d: Delta, path: string) {
    exists u <- d.updates :: exists pv <- u.values :: pv.path == path
  }

  /** The host's test, for the patterns of all enabled calculators. */
  ghost predicate Delivered(how: Subscribed, calcs: seq<Calculator>, d: Delta) {
    ForSelf(d) && exists path, input ::
      Carries(d, path) && Declared(calcs, input) && Paths.MatchesPattern(PatternOf(how, input), path)
  }

  /** Every input is an exact path or a prefix, as the trait demands. */
  ghost predicate PlainInputs(calcs: seq<Calculator>) {
    forall input :: Declared(calcs, input) ==> Paths.Plain(Paths.Split(input))
  }

  /** A value of the delta lies at or below an input: it would affect a calculator. */
  ghost predicate Concerns(calcs: seq<Calculator>, d: Delta) {
    exists path, input :: Carries(d, path) && Declared(calcs, input) && PathMatchesInput(path, input)
  }

  ghost predicate CarriesInput(calcs: seq<Calculator>, d: Delta) {
    exists input :: Carries(d, input) && Declared(calcs, input)
  }

  lemma DeliveredIffCarriesInput(calcs: seq<Calculator>, d: Delta)
    requires PlainInputs(calcs)
    ensures Delivered(AsIs, calcs, d) <==> ForSelf(d) && CarriesInput(calcs, d)
  {
    forall path, input | Declared(calcs, input)
      ensures Paths.MatchesPattern(PatternOf(AsIs, input), path) <==> path == input {
      Paths.PlainPatternIsExact(input, path);
    }
    if ForSelf(d) && CarriesInput(calcs, d) {
      var input :| Carries(d, input) && Declared(calcs, input);
      assert Paths.MatchesPattern(PatternOf(AsIs, input), input);
    }
  }

  /** What the subscription was meant to do: with the wildcard suffix, exactly the
      deltas of the own vessel that concern a calculator are delivered. */
  lemma SuffixDeliversExactlyConcerns(calcs: seq<Calculator>, d: Delta)
    requires PlainInputs(calcs)
    ensures Delivered(WithSuffix, calcs, d) <==> ForSelf(d) && Concerns(calcs, d)
  {
    forall path, input | Declared(calcs, input)
      ensures Paths.MatchesPattern(PatternOf(WithSuffix, input), path) <==> PathMatchesInput(path, input) {
      Paths.OpenPatternMatchesBelow(input, path);
    }
  }

  // ----- affecting and reaching the callback -----

  lemma {:induction false} IncomingCarried(updates: seq<Update>, p: string)
    ensures p in PathsOf(Incoming(updates)) <==> exists u <- updates :: u.source.sourceLabel != OWN_LABEL && exists pv <- u.values :: pv.path == p
  {
    if updates != [] {
      var n := |updates| - 1;
      var before, last := Incoming(updates[..n]), updates[n];
      IncomingCarried(updates[..n], p);
      assert updates == updates[..n] + [last];
      var more := if last.source.sourceLabel == OWN_LABEL then [] else last.values;
      PathsOfConcat(before, more, p);
      assert forall u :: u in updates <==> u in updates[..n] || u == last;
    }
  }

  lemma PathsOfConcat(a: seq<PathValue>, b: seq<PathValue>, p: string)
    ensures p in PathsOf(a + b) <==> p in PathsOf(a) || p in PathsOf(b)
    ensures p in PathsOf(b) <==> exists pv <- b :: pv.path == p
  {
    assert PathsOf(a + b) == PathsOf(a) + PathsOf(b);
    if p in PathsOf(b) {
      var i :| 0 <= i < |b| && PathsOf(b)[i] == p;
      assert b[i] in b;
    }
    if pv :| pv in b && pv.path == p {
      var i :| 0 <= i < |b| && b[i] == pv;
      assert PathsOf(b)[i] == p;
    }
  }

  /** Some enabled calculator would run in the callback's first round. */
  ghost predicate AffectsSome(calcs: seq<Calculator>, d: Delta) {
    exists c <- calcs :: Affected(c, PathsOf(Incoming(d.updates)))
  }

  lemma AffectingConcerns(calcs: seq<Calculator>, d: Delta)
    requires AffectsSome(calcs, d)
    ensures Concerns(calcs, d)
  {
    var c :| c in calcs && Affected(c, PathsOf(Incoming(d.updates)));
    var changed := PathsOf(Incoming(d.updates));
    var j :| 0 <= j < |changed| && InputMatches(c, changed[j]);
    var i :| 0 <= i < |c.inputs| && PathMatchesInput(changed[j], c.inputs[i]);
    assert changed[j] in changed;
    IncomingCarried(d.updates, changed[j]);
    assert Carries(d, changed[j]) && Declared(calcs, c.inputs[i]);
  }

  /** Main result: a delta of the own vessel that affects a calculator reaches the
      callback if and only if one of its values lies at a declared input exactly; with the
      suffix it always would. */
  lemma AffectingDeltaReachesCallbackIff(calcs: seq<Calculator>, d: Delta)
    requires PlainInputs(calcs) && ForSelf(d) && AffectsSome(calcs, d)
    ensures Delivered(AsIs, calcs, d) <==> CarriesInput(calcs, d)
    ensures Delivered(WithSuffix, calcs, d)
  {
    DeliveredIffCarriesInput(calcs, d);
    SuffixDeliversExactlyConcerns(calcs, d);
    AffectingConcerns(calcs, d);
  }

  // ----- runs through the host -----

  /** The snapshot after a run of deltas, of which only the delivered ones are seen. */
  ghost function HostRun(how: Subscribed, calcs: seq<Calculator>, s: Snapshot, deltas: seq<Delta>): Snapshot {
    if deltas == [] then s
    else
      var before := HostRun(how, calcs, s, deltas[..|deltas| - 1]);
      if Delivered(how, calcs, deltas[|deltas| - 1]) then Callback(calcs, before, deltas[|deltas| - 1].updates).0 else before
  }

  /** What was delivered leaves a fixpoint, under the hypotheses of the fixpoint theorem. */
  lemma {:induction false} HostRunReachesFixpoint(how: Subscribed, calcs: seq<Calculator>, fps: seq<Footprint>, deltas: seq<Delta>)
    requires WellBehaved(calcs, fps) && Layered(fps, MAX_ITERATIONS)
    requires forall i :: 0 <= i < |calcs| ==> calcs[i].calculate(map[]) == None
    requires forall k :: 0 <= k < |deltas| ==> WritesNoOutput(Incoming(deltas[k].updates), fps)
    ensures AllConsistent(calcs, HostRun(how, calcs, map[], deltas))
  {
    if deltas != [] {
      var n := |deltas| - 1;
      HostRunReachesFixpoint(how, calcs, fps, deltas[..n]);
      if Delivered(how, calcs, deltas[n]) {
        CallbackReachesFixpoint(calcs, fps, HostRun(how, calcs, map[], deltas[..n]), deltas[n].updates);
      }
    }
  }

  // ----- a battery voltage alone -----

  const BATTERIES := "electrical.batteries"
  const VOLTAGE := "electrical.batteries.0.voltage"

  /** A delta of the own vessel with one value, from a sensor. */
  function Single(path: string, value: Json): Delta {
    Delta(None, [Update(PluginSource("sensor"), 0, [PathValue(path, value)])])
  }

  lemma SingleCarries(path: string, value: Json, p: string)
    ensures Carries(Single(path, value), p) <==> p == path
    ensures PathsOf(Incoming(Single(path, value).updates)) == [path]
  {
    var d := Single(path, value);
    var u := d.updates[0];
    if p == path {
      assert u in d.updates && u.values[0] in u.values;
    }
    assert |"sensor"| != |OWN_LABEL|;
    assert [u][..0] == [] && [] + u.values == u.values;
  }

  lemma SingleAffects(c: Calculator, input: string, path: string, value: Json)
    requires input in c.inputs && PathMatchesInput(path, input)
    ensures Affected(c, PathsOf(Incoming(Single(path, value).updates)))
  {
    SingleCarries(path, value, path);
    var i :| 0 <= i < |c.inputs| && c.inputs[i] == input;
    assert PathMatchesInput(path, c.inputs[i]);
    assert InputMatches(c, PathsOf(Incoming(Single(path, value).updates))[0]);
  }

  /** A single value strictly below an input, at a path that is no input itself,
      affects the calculator and is never heard of. */
  lemma BelowAnInputIsNotHeard(calcs: seq<Calculator>, c: Calculator, input: string, path: string, value: Json)
    requires PlainInputs(calcs) && c in calcs && input in c.inputs && input + "." <= path && !Declared(calcs, path)
    ensures var d := Single(path, value);
            && Affected(c, PathsOf(Incoming(d.updates))) && !Delivered(AsIs, calcs, d) && Delivered(WithSuffix, calcs, d)
  {
    var d := Single(path, value);
    SingleAffects(c, input, path, value);
    forall p ensures Carries(d, p) <==> p == path {
      SingleCarries(path, value, p);
    }
    AffectingDeltaReachesCallbackIff(calcs, d);
  }

  /** With any set of enabled calculators that includes the battery power, and none
      that declares this very path, a battery voltage alone goes unheard. */
  lemma VoltageAloneIsNotHeard(calcs: seq<Calculator>, c: Calculator, s: Snapshot, volts: real)
    requires PlainInputs(calcs) && c in calcs && BATTERIES in c.inputs && !Declared(calcs, VOLTAGE)
    ensures var d := Single(VOLTAGE, Num(volts));
            Affected(c, PathsOf(Incoming(d.updates))) && HostRun(AsIs, calcs, s, [d]) == s
  {
    var d := Single(VOLTAGE, Num(volts));
    assert BATTERIES + "." <= VOLTAGE;
    BelowAnInputIsNotHeard(calcs, c, BATTERIES, VOLTAGE, Num(volts));
    assert [d][..0] == [];
  }
}
