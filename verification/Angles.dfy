/** Angle arithmetic over the reals, with the double-precision value of pi. */
module Angles {

  const PI: real := 3.141592653589793115997963468544185161590576171875

  /** `x.rem_euclid(2.0 * PI)`: the representative of `x` in [0, 2 pi). */
  function RemEuclid(x: real): (r: real)
    ensures 0.0 <= r < 2.0 * PI
  {
    x - 2.0 * PI * ((x / (2.0 * PI)).Floor as real)
  }

  /** Two angles are the same direction. */
  ghost predicate Congruent(a: real, b: real) {
    exists k: int :: a == b + Turns(k)
  }

  /** `k` full turns. */
  function Turns(k: int): real {
    k as real * (2.0 * PI)
  }

  lemma FloorShift(x: real, k: int)
    ensures (x + k as real).Floor == x.Floor + k
  {}

  lemma RemEuclidShift(x: real, k: int)
    ensures RemEuclid(x + Turns(k)) == RemEuclid(x)
  {
    assert (x + Turns(k)) / (2.0 * PI) == x / (2.0 * PI) + k as real;
    FloorShift(x / (2.0 * PI), k);
  }

  /** The representative is congruent to the angle, and characterises it. */
  lemma RemEuclidCongruent(a: real, b: real)
    ensures Congruent(a, b) <==> RemEuclid(a) == RemEuclid(b)
  {
    if Congruent(a, b) {
      var k: int :| a == b + Turns(k);
      RemEuclidShift(b, k);
    }
    if RemEuclid(a) == RemEuclid(b) {
      var k := (a / (2.0 * PI)).Floor - (b / (2.0 * PI)).Floor;
      assert a == b + Turns(k);
    }
  }

  /** Normalising a summand first does not change the normalised sum. */
  lemma RemEuclidAdd(a: real, b: real)
    ensures RemEuclid(RemEuclid(a) + b) == RemEuclid(a + b)
  {
    var k := (a / (2.0 * PI)).Floor;
    assert a + b == RemEuclid(a) + b + Turns(k);
    RemEuclidShift(RemEuclid(a) + b, k);
  }
}
