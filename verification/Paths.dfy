/** Dot-separated Signal K paths and subscription patterns
    (crates/signalk-types/src/path.rs). */
module Paths {

  /** `path.split('.')`: always at least one, possibly empty, segment. */
  function Split(path: string): (parts: seq<string>)
    ensures |parts| >= 1
  {
    if path == "" then [""]
    else if path[0] == '.' then [""] + Split(path[1..])
    else
      var rest := Split(path[1..]);
      [[path[0]] + rest[0]] + rest[1..]
  }

  /** `parts.join(".")`. */
  function Join(parts: seq<string>): string {
    if |parts| == 0 then ""
    else if |parts| == 1 then parts[0]
    else parts[0] + "." + Join(parts[1..])
  }

  ghost predicate DotFree(parts: seq<string>) {
    forall i :: 0 <= i < |parts| ==> '.' !in parts[i]
  }

  lemma {:induction false} SplitIsDotFree(path: string)
    ensures DotFree(Split(path))
  {
    if path != "" {
      SplitIsDotFree(path[1..]);
      var rest := Split(path[1..]);
      assert '.' !in rest[0];
    }
  }

  lemma {:induction false} JoinOfSplit(path: string)
    ensures Join(Split(path)) == path
  {
    if path == "" {
    } else {
      var rest := Split(path[1..]);
      JoinOfSplit(path[1..]);
      if path[0] == '.' {
        assert ([""] + rest)[1..] == rest;
      } else if |rest| > 1 {
        assert ([[path[0]] + rest[0]] + rest[1..])[1..] == rest[1..];
      }
    }
  }

  lemma {:induction false} SplitOfSegment(segment: string)
    requires '.' !in segment
    ensures Split(segment) == [segment]
  {
    if segment != "" {
      SplitOfSegment(segment[1..]);
      assert segment[0] in segment && [segment[0]] + segment[1..] == segment;
    }
  }

  lemma {:induction false} SplitAtDot(segment: string, tail: string)
    requires '.' !in segment
    ensures Split(segment + "." + tail) == [segment] + Split(tail)
  {
    var s := segment + "." + tail;
    if segment == "" {
      assert s == "." + tail;
      assert s[1..] == tail;
    } else {
      SplitAtDot(segment[1..], tail);
      assert segment[0] in segment && [segment[0]] + segment[1..] == segment;
      assert s[1..] == segment[1..] + "." + tail;
    }
  }

  /** Splitting undoes joining exactly on non-empty lists of dot-free segments. */
  lemma {:induction false} SplitOfJoin(parts: seq<string>)
    ensures Split(Join(parts)) == parts <==> |parts| >= 1 && DotFree(parts)
  {
    if |parts| >= 1 && DotFree(parts) {
      if |parts| == 1 {
        SplitOfSegment(parts[0]);
      } else {
        SplitOfJoin(parts[1..]);
        SplitAtDot(parts[0], Join(parts[1..]));
      }
    } else {
      SplitIsDotFree(Join(parts));
    }
  }

  /** `matches_parts`: the recursion over pattern and path segments. */
  predicate MatchesParts(pattern: seq<string>, path: seq<string>) {
    if pattern == [] && path == [] then true
    else if pattern != [] && pattern[0] == "**" then true
    else if pattern == [] || path == [] then false
    else if pattern[0] == "*" then MatchesParts(pattern[1..], path[1..])
    else if pattern[0] == path[0] then MatchesParts(pattern[1..], path[1..])
    else false
  }

  predicate MatchesPattern(pattern: string, path: string) {
    MatchesParts(Split(pattern), Split(path))
  }

  /** The first `n` pattern segments are not `**` and each accepts the path
      segment in the same position. */
  ghost predicate Accepts(pattern: seq<string>, path: seq<string>, n: int) {
    0 <= n <= |pattern| && n <= |path|
    && forall i :: 0 <= i < n ==> pattern[i] != "**" && (pattern[i] == "*" || pattern[i] == path[i])
  }

  /** What a pattern means, without recursion: pointwise agreement up to the
      first `**`, whatever follows it; otherwise the same depth as well. */
  ghost predicate Meaning(pattern: seq<string>, path: seq<string>) {
    || (exists n :: 0 <= n < |pattern| && pattern[n] == "**" && Accepts(pattern, path, n))
    || (|pattern| == |path| && Accepts(pattern, path, |path|))
  }

  lemma {:induction false} MatchesPartsMeaning(pattern: seq<string>, path: seq<string>)
    ensures MatchesParts(pattern, path) <==> Meaning(pattern, path)
  {
    if pattern == [] {
    } else if pattern[0] == "**" {
      assert Accepts(pattern, path, 0);
    } else if path != [] {
      MatchesPartsMeaning(pattern[1..], path[1..]);
      MeaningOfTail(pattern, path);
    }
  }

  lemma AcceptsTail(pattern: seq<string>, path: seq<string>, n: int)
    requires pattern != [] && pattern[0] != "**" && path != []
    ensures n > 0 ==> (Accepts(pattern, path, n)
      <==> (pattern[0] == "*" || pattern[0] == path[0]) && Accepts(pattern[1..], path[1..], n - 1))
  {
    var p, q := pattern[1..], path[1..];
    assert forall i :: 0 <= i < |p| ==> p[i] == pattern[i + 1];
    assert forall i :: 0 <= i < |q| ==> q[i] == path[i + 1];
    assert forall i :: 0 < i < |pattern| ==> pattern[i] == p[i - 1];
    assert forall i :: 0 < i < |path| ==> path[i] == q[i - 1];
  }

  lemma MeaningOfTail(pattern: seq<string>, path: seq<string>)
    requires pattern != [] && pattern[0] != "**" && path != []
    ensures Meaning(pattern, path)
       <==> (pattern[0] == "*" || pattern[0] == path[0]) && Meaning(pattern[1..], path[1..])
  {
    var p, q := pattern[1..], path[1..];
    forall n ensures n > 0 ==> (Accepts(pattern, path, n)
      <==> (pattern[0] == "*" || pattern[0] == path[0]) && Accepts(p, q, n - 1))
    {
      AcceptsTail(pattern, path, n);
    }
    if n :| 0 <= n < |pattern| && pattern[n] == "**" && Accepts(pattern, path, n) {
      assert p[n - 1] == "**" && Accepts(p, q, n - 1);
    }
    if n :| 0 <= n < |p| && p[n] == "**" && Accepts(p, q, n) {
      assert pattern[n + 1] == "**";
      assert pattern[0] == "*" || pattern[0] == path[0] ==> Accepts(pattern, path, n + 1);
    }
    assert |q| == |path| - 1;
    AcceptsTail(pattern, path, |path|);
  }

  // ----- plain patterns -----

  lemma SplitOfCons(c: char, tail: string)
    ensures Split([c] + tail) == if c == '.' then [""] + Split(tail) else [[c] + Split(tail)[0]] + Split(tail)[1..]
  {
    assert ([c] + tail)[1..] == tail;
  }

  lemma PrependHead(c: char, p: seq<string>, q: seq<string>)
    requires p != []
    ensures [[c] + (p + q)[0]] + (p + q)[1..] == ([[c] + p[0]] + p[1..]) + q
    ensures [""] + (p + q) == ([""] + p) + q
  {}

  lemma {:induction false} SplitOfConcat(a: string, b: string)
    ensures Split(a + "." + b) == Split(a) + Split(b)
  {
    if a == "" {
      SplitOfCons('.', b);
      assert a + "." + b == ['.'] + b;
    } else {
      var c, t := a[0], a[1..];
      SplitOfConcat(t, b);
      assert a == [c] + t && a + "." + b == [c] + (t + "." + b);
      SplitOfCons(c, t + "." + b);
      SplitOfCons(c, t);
      PrependHead(c, Split(t), Split(b));
    }
  }

  lemma {:induction false} JoinOfConcat(p: seq<string>, q: seq<string>)
    requires p != [] && q != []
    ensures Join(p + q) == Join(p) + "." + Join(q)
  {
    if |p| > 1 {
      JoinOfConcat(p[1..], q);
      assert (p + q)[1..] == p[1..] + q;
    } else {
      assert (p + q)[1..] == q;
    }
  }

  /** No segment is a wildcard. */
  ghost predicate Plain(parts: seq<string>) {
    forall i :: 0 <= i < |parts| ==> parts[i] != "*" && parts[i] != "**"
  }

  lemma {:induction false} PlainMatchesItself(pattern: seq<string>, path: seq<string>)
    requires Plain(pattern)
    ensures MatchesParts(pattern, path) <==> pattern == path
  {
    if pattern != [] && path != [] {
      PlainMatchesItself(pattern[1..], path[1..]);
      assert pattern == [pattern[0]] + pattern[1..] && path == [path[0]] + path[1..];
    }
  }

  /** A pattern without wildcards matches its own path and no other. */
  lemma PlainPatternIsExact(pattern: string, path: string)
    requires Plain(Split(pattern))
    ensures MatchesPattern(pattern, path) <==> path == pattern
  {
    PlainMatchesItself(Split(pattern), Split(path));
    JoinOfSplit(pattern);
    JoinOfSplit(path);
  }

  lemma {:induction false} OpenPatternMatchesPrefix(pattern: seq<string>, path: seq<string>)
    requires Plain(pattern)
    ensures MatchesParts(pattern + ["**"], path) <==> pattern <= path
  {
    if pattern == [] {
    } else if path != [] {
      OpenPatternMatchesPrefix(pattern[1..], path[1..]);
      assert (pattern + ["**"])[1..] == pattern[1..] + ["**"];
      assert pattern == [pattern[0]] + pattern[1..] && path == [path[0]] + path[1..];
    }
  }

  /** With `.**` appended it also matches every path below. */
  lemma OpenPatternMatchesBelow(pattern: string, path: string)
    requires Plain(Split(pattern))
    ensures MatchesPattern(pattern + ".**", path) <==> path == pattern || pattern + "." <= path
  {
    SplitOfSegment("**");
    SplitOfConcat(pattern, "**");
    assert pattern + ".**" == pattern + "." + "**";
    OpenPatternMatchesPrefix(Split(pattern), Split(path));
    PrefixIsBelow(pattern, path);
  }

  lemma PrefixIsBelow(a: string, path: string)
    ensures Split(a) <= Split(path) <==> path == a || a + "." <= path
  {
    if Split(a) <= Split(path) {
      PrefixGoesBelow(a, path);
    } else if a + "." <= path {
      BelowHasPrefix(a, path);
    }
  }

  lemma PrefixGoesBelow(a: string, path: string)
    requires Split(a) <= Split(path)
    ensures path == a || a + "." <= path
  {
    var p, q := Split(a), Split(path);
    JoinOfSplit(a);
    JoinOfSplit(path);
    var rest := q[|p|..];
    assert q == p + rest;
    if rest == [] {
      assert q == p;
    } else {
      JoinOfConcat(p, rest);
      assert path == a + "." + Join(rest);
    }
  }

  lemma BelowHasPrefix(a: string, path: string)
    requires a + "." <= path
    ensures Split(a) <= Split(path)
  {
    var rest := path[|a| + 1..];
    assert path == a + "." + rest;
    SplitOfConcat(a, rest);
  }
}
