/** What provider calls make of the target, and sensor deltas of the sensors, from the calls
    and deltas alone (crates/plugins/autopilot/src/provider.rs, lib.rs, state.rs). */
module AutopilotInputs {
  import opened Basics
  import opened Deltas
  import opened JsonModel
  import opened Angles
  import opened AutopilotControl
  import opened AutopilotProvider

  // ----- the target -----

  /** Only these calls move the target. */
  predicate Retargets(c: Call) {
    c.SetTarget? || c.AdjustTarget? || c.TackTo? || c.GybeTo? || c.CourseCurrentPoint?
  }

  /** What each call makes of target, dodge and mode. */
  lemma TargetEffects(s: Shared, c: Call)
    ensures var (n, r) := Serve(s, c);
            && (!Retargets(c) ==> n.target == s.target)
            && (c.SetTarget? ==> n.target == Some(c.value))
            && (c.AdjustTarget? ==> n.target.Some? && Wraps(OrZero(s.target) + c.delta, n.target.value))
            && (c.CourseCurrentPoint? && r.Ok? ==>
                  && c.stored.Ok? && c.stored.value.Some? && c.stored.value.value.Num?
                  && n.target == Some(c.stored.value.value.n) && n.mode == Route)
            && n.dodge == (if c.Dodge? then c.offset else s.dodge)
            && n.mode == (if r.Err? then s.mode
                          else if c.SetMode? then ParseMode(c.mode).value
                          else if c.CourseCurrentPoint? || c.CourseNextPoint? then Route else s.mode)
  {
    if c.AdjustTarget? {
      NormalizeAngleWraps(OrZero(s.target) + c.delta);
    }
  }

  /** The target after adjusting it by each of `deltas`. */
  function Adjusted(s: Shared, deltas: seq<real>): Shared {
    if deltas == [] then s else Serve(Adjusted(s, deltas[..|deltas| - 1]), AdjustTarget(deltas[|deltas| - 1])).0
  }

  function Sum(xs: seq<real>): real {
    if xs == [] then 0.0 else Sum(xs[..|xs| - 1]) + xs[|xs| - 1]
  }

  lemma CongruentPlus(a: real, b: real, x: real)
    requires Congruent(a, b)
    ensures Congruent(a + x, b + x)
  {
    var k: int :| a == b + Turns(k);
    assert a + x == b + x + Turns(k);
  }

  lemma CongruentChain(a: real, b: real, c: real)
    requires Congruent(a, b) && Congruent(b, c)
    ensures Congruent(a, c)
  {
    var j: int :| a == b + Turns(j);
    var k: int :| b == c + Turns(k);
    assert a == c + Turns(j + k);
  }

  /** Main result: any number of adjustments lead to the sum of them, up to whole turns, and
      never beyond half a turn; a missing target counts as zero. */
  lemma {:induction false} AdjustmentsAddUp(s: Shared, deltas: seq<real>)
    requires deltas != []
    ensures var t := Adjusted(s, deltas).target;
            t.Some? && Congruent(OrZero(s.target) + Sum(deltas), t.value) && Abs(t.value) <= PI
  {
    var before, delta := deltas[..|deltas| - 1], deltas[|deltas| - 1];
    var mid := Adjusted(s, before);
    TargetEffects(mid, AdjustTarget(delta));
    if before == [] {
      assert Sum(before) == 0.0;
    } else {
      AdjustmentsAddUp(s, before);
      CongruentPlus(OrZero(s.target) + Sum(before), mid.target.value, delta);
      CongruentChain(OrZero(s.target) + Sum(before) + delta, mid.target.value + delta, Adjusted(s, deltas).target.value);
    }
  }

  // ----- what the sensors show -----

  /** The `j`-th value of the `i`-th update is a number at `path`, and counts: the rudder's
      own readings only from other sources. */
  predicate Shows(d: Delta, i: int, j: int, path: string) {
    && 0 <= i < |d.updates| && 0 <= j < |d.updates[i].values|
    && d.updates[i].values[j].path == path && d.updates[i].values[j].value.Num?
    && (path == "steering.rudderAngle" ==>
          !(d.updates[i].source.kind == "Plugin" && d.updates[i].source.sourceLabel == "autopilot"))
  }

  ghost predicate ShowsLast(d: Delta, i: int, j: int, path: string) {
    Shows(d, i, j, path) && forall k, l :: Shows(d, k, l, path) ==> k < i || (k == i && l <= j)
  }

  /** What is known of a path: the rudder feedback or a sensor, and when it was seen. */
  function Known(s: Shared, path: string): (Option<real>, Option<int>) {
    if path == "steering.rudderAngle" then (s.actualRudder, s.actualRudderSeen) else (Get(s.sensors, path), Get(s.seen, path))
  }

  /** Of the first `n` updates, and the first `m` values of the next. */
  predicate ShowsWithin(d: Delta, n: nat, m: nat, i: int, j: int, path: string) {
    Shows(d, i, j, path) && (i < n || (i == n && j < m))
  }

  ghost predicate LastWithin(d: Delta, n: nat, m: nat, path: string, was: (Option<real>, Option<int>), known: (Option<real>, Option<int>), now: int) {
    || (known == was && forall i, j :: !ShowsWithin(d, n, m, i, j, path))
    || (exists i, j :: ShowsWithin(d, n, m, i, j, path) && known == (Some(d.updates[i].values[j].value.n), Some(now))
                       && forall k, l :: ShowsWithin(d, n, m, k, l, path) ==> k < i || (k == i && l <= j))
  }

  lemma KnownAfterSense(s: Shared, src: Source, pv: PathValue, now: int, path: string)
    ensures Known(Sense(s, src, pv, now), path)
         == if pv.path == path && pv.value.Num? && (path == "steering.rudderAngle" ==> !OwnSource(src))
            then (Some(pv.value.n), Some(now)) else Known(s, path)
  {}

  lemma OneValueMore(d: Delta, n: nat, m: nat, path: string, was: (Option<real>, Option<int>), known: (Option<real>, Option<int>), now: int)
    requires n < |d.updates| && m < |d.updates[n].values| && LastWithin(d, n, m, path, was, known, now)
    ensures LastWithin(d, n, m + 1, path, was,
                       if Shows(d, n, m, path) then (Some(d.updates[n].values[m].value.n), Some(now)) else known, now)
  {
    if Shows(d, n, m, path) {
      assert ShowsWithin(d, n, m + 1, n, m, path);
    } else {
      assert forall i, j :: ShowsWithin(d, n, m + 1, i, j, path) <==> ShowsWithin(d, n, m, i, j, path);
      SameWithin(d, n, m, n, m + 1, path, was, known, now);
    }
  }

  lemma SameWithin(d: Delta, n: nat, m: nat, n': nat, m': nat, path: string, was: (Option<real>, Option<int>),
                   known: (Option<real>, Option<int>), now: int)
    requires LastWithin(d, n, m, path, was, known, now)
    requires forall i, j :: ShowsWithin(d, n', m', i, j, path) <==> ShowsWithin(d, n, m, i, j, path)
    ensures LastWithin(d, n', m', path, was, known, now)
  {
    if !(known == was && forall i, j :: !ShowsWithin(d, n, m, i, j, path)) {
      var i, j :| ShowsWithin(d, n, m, i, j, path) && known == (Some(d.updates[i].values[j].value.n), Some(now))
                  && forall k, l :: ShowsWithin(d, n, m, k, l, path) ==> k < i || (k == i && l <= j);
      assert ShowsWithin(d, n', m', i, j, path);
    }
  }

  lemma NextUpdate(d: Delta, n: nat, path: string, was: (Option<real>, Option<int>), known: (Option<real>, Option<int>), now: int)
    requires n < |d.updates| && LastWithin(d, n, |d.updates[n].values|, path, was, known, now)
    ensures LastWithin(d, n + 1, 0, path, was, known, now)
  {
    assert forall i, j :: ShowsWithin(d, n + 1, 0, i, j, path) <==> ShowsWithin(d, n, |d.updates[n].values|, i, j, path);
    SameWithin(d, n, |d.updates[n].values|, n + 1, 0, path, was, known, now);
  }

  lemma {:induction false} UpdateShowsLast(s: Shared, d: Delta, n: nat, m: nat, now: int, path: string, was: (Option<real>, Option<int>))
    requires n < |d.updates| && m <= |d.updates[n].values| && LastWithin(d, n, 0, path, was, Known(s, path), now)
    ensures LastWithin(d, n, m, path, was, Known(SenseUpdate(s, d.updates[n], m, now), path), now)
  {
    if m > 0 {
      var before := SenseUpdate(s, d.updates[n], m - 1, now);
      UpdateShowsLast(s, d, n, m - 1, now, path, was);
      KnownAfterSense(before, d.updates[n].source, d.updates[n].values[m - 1], now, path);
      OneValueMore(d, n, m - 1, path, was, Known(before, path), now);
    }
  }

  lemma WholeUpdateShows(s: Shared, d: Delta, n: nat, now: int, path: string, was: (Option<real>, Option<int>))
    requires n < |d.updates| && LastWithin(d, n, 0, path, was, Known(s, path), now)
    ensures LastWithin(d, n + 1, 0, path, was, Known(SenseUpdate(s, d.updates[n], |d.updates[n].values|, now), path), now)
  {
    UpdateShowsLast(s, d, n, |d.updates[n].values|, now, path, was);
    NextUpdate(d, n, path, was, Known(SenseUpdate(s, d.updates[n], |d.updates[n].values|, now), path), now);
  }

  /** What holds at first and after each update holds after the delta. */
  lemma {:induction false} AfterEachUpdate(holds: (nat, Shared) -> bool, s: Shared, d: Delta, n: nat, now: int)
    requires n <= |d.updates| && holds(0, s)
    requires forall k: nat, x :: k < |d.updates| && holds(k, x) ==> holds(k + 1, SenseUpdate(x, d.updates[k], |d.updates[k].values|, now))
    ensures holds(n, SenseDelta(s, d, n, now))
  {
    if n > 0 {
      AfterEachUpdate(holds, s, d, n - 1, now);
      assert holds(n - 1 + 1, SenseDelta(s, d, n, now));
    }
  }

  lemma DeltaShowsLast(s: Shared, d: Delta, now: int, path: string, was: (Option<real>, Option<int>))
    requires was == Known(s, path)
    ensures LastWithin(d, |d.updates|, 0, path, was, Known(SenseDelta(s, d, |d.updates|, now), path), now)
  {
    var holds := (k: nat, x: Shared) => LastWithin(d, k, 0, path, was, Known(x, path), now);
    forall k: nat, x | k < |d.updates| && holds(k, x) ensures holds(k + 1, SenseUpdate(x, d.updates[k], |d.updates[k].values|, now)) {
      WholeUpdateShows(x, d, k, now, path, was);
    }
    AfterEachUpdate(holds, s, d, |d.updates|, now);
  }

  /** Main result: after a delta each path shows the last number that counts there, seen now,
      and what it showed before if there is none. */
  lemma DeltaIsSensed(s: Shared, d: Delta, now: int, path: string)
    ensures var was, known := Known(s, path), Known(SenseDelta(s, d, |d.updates|, now), path);
            || (known == was && forall i, j :: !Shows(d, i, j, path))
            || (exists i, j :: ShowsLast(d, i, j, path) && known == (Some(d.updates[i].values[j].value.n), Some(now)))
  {
    DeltaShowsLast(s, d, now, path, Known(s, path));
    assert forall i, j :: ShowsWithin(d, |d.updates|, 0, i, j, path) <==> Shows(d, i, j, path);
  }
}
