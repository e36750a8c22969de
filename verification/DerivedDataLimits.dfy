/** Where the five rounds of the derived-data plugin stop short of a fixpoint:
    dependency chains deeper than five. */
module DerivedDataLimits {
  import opened Basics
  import opened JsonModel
  import opened DerivedData
  import opened Deltas

  lemma WriteOne(s: Snapshot, a: PathValue)
    ensures Write(s, [a]) == s[a.path := a.value] && PathsOf([a]) == [a.path]
  {
    assert [a][..0] == [];
  }

  function FromSensor(values: seq<PathValue>): Update {
    Update(PluginSource("sensor"), 0, values)
  }

  lemma IncomingOne(u: Update)
    ensures Incoming([u]) == if u.source.sourceLabel == OWN_LABEL then [] else u.values
  {
    assert [u][..0] == [] && [] + u.values == u.values;
  }

  // ----- a chain of copying calculators -----

  function Node(k: nat): string {
    seq(k, _ => 'x')
  }

  function Copy(k: nat): Calculator {
    Calculator("copy", [Node(k)],
               s => if Node(k) in s then Some([PathValue(Node(k + 1), s[Node(k)])]) else None)
  }

  function Chain(n: nat): seq<Calculator> {
    seq(n, (k: int) requires 0 <= k < n => Copy(k))
  }

  ghost function ChainFootprints(n: nat): seq<Footprint> {
    seq(n, (k: int) requires 0 <= k < n => Footprint(iset{Node(k)}, iset{Node(k + 1)}, k + 1))
  }

  /** Nodes up to `r` hold the new value, the later ones the old value. */
  ghost predicate Flowed(s: Snapshot, n: nat, r: nat, before: Json, after: Json) {
    forall k :: 0 <= k <= n ==> Get(s, Node(k)) == Some(if k <= r then after else before)
  }

  lemma NodesDiffer()
    ensures forall j: nat, k: nat :: Node(j) == Node(k) <==> j == k
    ensures forall j: nat, k: nat :: PathMatchesInput(Node(j), Node(k)) <==> j == k
  {
    forall j: nat, k: nat | j != k ensures !PathMatchesInput(Node(j), Node(k)) && Node(j) != Node(k) {
      assert |Node(j)| == j && |Node(k)| == k;
      assert (Node(k) + ".")[k] == '.';
    }
  }

  /** The chain meets every assumption of the fixpoint theorem except the depth. */
  lemma ChainIsWellBehaved(n: nat)
    ensures WellBehaved(Chain(n), ChainFootprints(n)) && Layered(ChainFootprints(n), n)
  {
    NodesDiffer();
    var calcs, fps := Chain(n), ChainFootprints(n);
    forall i | 0 <= i < n ensures Honest(calcs[i], fps[i]) {
      assert InputMatches(calcs[i], Node(i)) by {
        assert PathMatchesInput(Node(i), calcs[i].inputs[0]);
      }
      forall a: Snapshot, b: Snapshot | AgreeOn(a, b, fps[i].readSet) ensures Outputs(calcs[i], a) == Outputs(calcs[i], b) {
        assert Get(a, Node(i)) == Get(b, Node(i));
      }
    }
  }

  lemma CopyAffected(k: nat, r: nat)
    ensures Affected(Copy(k), [Node(r)]) <==> k == r
  {
    NodesDiffer();
    if k == r {
      assert PathMatchesInput([Node(r)][0], Copy(k).inputs[0]);
    }
  }

  /** With only node `r` changed, a round derives node `r + 1` and nothing else. */
  lemma {:induction false} ChainRound(n: nat, r: nat, s: Snapshot)
    requires Node(r) in s
    ensures RunAffected(Chain(n), s, [Node(r)]) == if r < n then [PathValue(Node(r + 1), s[Node(r)])] else []
  {
    if n > 0 {
      ChainRound(n - 1, r, s);
      assert Chain(n)[..n - 1] == Chain(n - 1);
      CopyAffected(n - 1, r);
    }
  }

  lemma ChainStep(n: nat, r: nat, s: Snapshot, before: Json, after: Json)
    requires r < n && Flowed(s, n, r, before, after)
    ensures Flowed(s[Node(r + 1) := after], n, r + 1, before, after)
  {
    NodesDiffer();
  }

  lemma {:induction false} ChainRounds(n: nat, r: nat, s: Snapshot, before: Json, after: Json, rounds: nat)
    requires r <= n && Flowed(s, n, r, before, after)
    ensures Flowed(Rounds(Chain(n), s, [Node(r)], rounds).0, n, Lesser(r + rounds, n), before, after)
    decreases rounds
  {
    assert Get(s, Node(r)) == Some(after);
    ChainRound(n, r, s);
    if rounds > 0 && r < n {
      WriteOne(s, PathValue(Node(r + 1), after));
      ChainStep(n, r, s, before, after);
      ChainRounds(n, r + 1, s[Node(r + 1) := after], before, after, rounds - 1);
      assert Rounds(Chain(n), s, [Node(r)], rounds).0
          == Rounds(Chain(n), s[Node(r + 1) := after], [Node(r + 1)], rounds - 1).0;
    } else {
      assert Rounds(Chain(n), s, [Node(r)], rounds).0 == s;
    }
  }

  function Lesser(a: nat, b: nat): nat {
    if a < b then a else b
  }

  /** A chain into which a change has flowed is consistent once it has reached the end. */
  lemma FlowConsistent(n: nat, r: nat, s: Snapshot, before: Json, after: Json)
    requires r <= n && Flowed(s, n, r, before, after)
    ensures AllConsistent(Chain(n), s) <==> before == after || r == n
  {
    forall i | 0 <= i < n
      ensures Consistent(Chain(n)[i], s) <==> before == after || i != r
    {
      assert Get(s, Node(i)) == Some(if i <= r then after else before);
      assert Get(s, Node(i + 1)) == Some(if i + 1 <= r then after else before);
      CopyConsistent(i, s);
    }
    if before != after && r < n {
      assert !Consistent(Chain(n)[r], s);
    }
  }

  lemma ChainCallback(calcs: seq<Calculator>, s: Snapshot, after: Json)
    ensures Callback(calcs, s, [FromSensor([PathValue(Node(0), after)])])
         == Rounds(calcs, s[Node(0) := after], [Node(0)], MAX_ITERATIONS)
  {
    assert |"sensor"| != |OWN_LABEL|;
    IncomingOne(FromSensor([PathValue(Node(0), after)]));
    WriteOne(s, PathValue(Node(0), after));
  }

  /** Changing the source of a chain of `n` calculators reaches a fixpoint exactly
      when the chain is at most five calculators deep. */
  lemma ChainFixpointIffDepthAtMostFive(n: nat, s: Snapshot, before: Json, after: Json)
    requires before != after && forall k :: 0 <= k <= n ==> Get(s, Node(k)) == Some(before)
    ensures AllConsistent(Chain(n), s)
    ensures AllConsistent(Chain(n), Callback(Chain(n), s, [FromSensor([PathValue(Node(0), after)])]).0)
            <==> n <= 5
  {
    FlowConsistent(n, 0, s, before, before);
    ChainCallback(Chain(n), s, after);
    var s1 := s[Node(0) := after];
    assert Flowed(s1, n, 0, before, after) by {
      NodesDiffer();
    }
    ChainRounds(n, 0, s1, before, after, MAX_ITERATIONS);
    FlowConsistent(n, Lesser(MAX_ITERATIONS, n), Rounds(Chain(n), s1, [Node(0)], MAX_ITERATIONS).0, before, after);
  }

  lemma CopyConsistent(k: nat, s: Snapshot)
    requires Node(k) in s
    ensures Consistent(Copy(k), s) <==> Get(s, Node(k)) == Get(s, Node(k + 1))
  {
    WriteOne(s, PathValue(Node(k + 1), s[Node(k)]));
    assert Consistent(Copy(k), s) ==> Node(k + 1) in s;
  }
}
