/** Circular arithmetic on headings measured in degrees: the clamp `minmax`
    and the angle resolver `resolv` that every other part of the autopilot
    relies on. */
module Angles {

  /** `k` whole turns, in degrees. */
  function Turns(k: int): real {
    360.0 * (k as real)
  }

  /** `a` and `b` denote the same direction: they differ by a whole number of turns. */
  ghost predicate Congruent(a: real, b: real) {
    exists k: int :: a - b == Turns(k)
  }

  /** Symmetric clamp of `value` into `[-r, r]`, written as the source's
      `min(max(value, -r), r)`; a negative bound yields the bound itself. */
  function MinMax(value: real, r: real): (m: real)
    ensures r >= 0.0 ==> -r <= m <= r
    ensures -r <= value <= r ==> m == value
    ensures r >= 0.0 && value > r ==> m == r
    ensures r >= 0.0 && value < -r ==> m == -r
    ensures r < 0.0 ==> m == r
  {
    var lower := if value >= -r then value else -r;
    if lower <= r then lower else r
  }

  /** `resolv(angle, reference)`: the angle congruent to `angle` within
      `[reference - 180, reference + 180)`. */
  function Resolv(angle: real, reference: real): (r: real)
    ensures reference - 180.0 <= r < reference + 180.0
    ensures Congruent(r, angle)
  {
    var k := -((angle - reference + 180.0) / 360.0).Floor;
    CongruentTurns(angle, k);
    angle + Turns(k)
  }

  /** Any whole number of turns added to an angle keeps it congruent. */
  lemma CongruentTurns(a: real, k: int)
    ensures Congruent(a + Turns(k), a)
  {
    assert a + Turns(k) - a == Turns(k);
  }

  lemma CongruentSymmetric(a: real, b: real)
    requires Congruent(a, b)
    ensures Congruent(b, a)
  {
    var k :| a - b == Turns(k);
    assert b - a == Turns(-k);
  }

  lemma CongruentTransitive(a: real, b: real, c: real)
    requires Congruent(a, b) && Congruent(b, c)
    ensures Congruent(a, c)
  {
    var k :| a - b == Turns(k);
    var j :| b - c == Turns(j);
    assert a - c == Turns(k + j);
  }

  /** Adding the same amount to two congruent angles keeps them congruent. */
  lemma CongruentAdd(a: real, b: real, x: real)
    requires Congruent(a, b)
    ensures Congruent(a + x, b + x)
  {
    var k :| a - b == Turns(k);
    assert a + x - (b + x) == Turns(k);
  }

  /** Two congruent angles closer than a full turn are equal. */
  lemma CongruentClose(a: real, b: real)
    requires Congruent(a, b)
    requires -360.0 < a - b < 360.0
    ensures a == b
  {
    var k :| a - b == Turns(k);
    assert -1 < k < 1;
  }

  /** `Resolv` is the ONLY angle in its window congruent to the input. */
  lemma ResolvUnique(angle: real, reference: real, x: real)
    requires reference - 180.0 <= x < reference + 180.0
    requires Congruent(x, angle)
    ensures Resolv(angle, reference) == x
  {
    var r := Resolv(angle, reference);
    CongruentSymmetric(x, angle);
    CongruentTransitive(r, angle, x);
    CongruentClose(r, x);
  }

  /** Resolving twice against the same reference changes nothing. */
  lemma ResolvIdempotent(angle: real, reference: real)
    ensures Resolv(Resolv(angle, reference), reference) == Resolv(angle, reference)
  {
    var r := Resolv(angle, reference);
    assert r - r == Turns(0);
    ResolvUnique(r, reference, r);
  }

  /** Congruent inputs resolve to the same angle. */
  lemma ResolvCongruent(a: real, b: real, reference: real)
    requires Congruent(a, b)
    ensures Resolv(a, reference) == Resolv(b, reference)
  {
    var r := Resolv(b, reference);
    CongruentTransitive(r, b, a) by { CongruentSymmetric(a, b); }
    ResolvUnique(a, reference, r);
  }

  /** Resolving near `reference` is resolving the difference near zero:
      `Resolv(a, ref) - ref` is the signed shortest turn from `ref` to `a`. */
  lemma ResolvRelative(angle: real, reference: real)
    ensures Resolv(angle, reference) - reference == Resolv(angle - reference, 0.0)
  {
    var r := Resolv(angle, reference);
    CongruentAdd(r, angle, -reference);
    ResolvUnique(angle - reference, 0.0, r - reference);
  }
}
