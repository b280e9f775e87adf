/** Compass-bearing arithmetic on exact reals.

    JavaScript's `%` is a truncated remainder: the quotient is rounded toward
    zero, so the result carries the sign of the dividend. Dafny's `%` is
    Euclidean and defined on integers only, so the truncated remainder by 360
    is written out here (`JsRem360`), next to the Euclidean reduction into
    [0, 360) (`Mod360`) that serves as its reference. */
module Bearings {

  /** True when y is a whole number. */
  predicate IsInteger(y: real)
  {
    y.Floor as real == y
  }

  /** a and b denote the same compass direction: they differ by a whole
      number of turns. */
  predicate Congruent360(a: real, b: real)
  {
    IsInteger((a - b) / 360.0)
  }

  /** Rounding toward zero, as JavaScript's `%` does with its quotient. */
  function Trunc(y: real): (t: int)
    ensures 0.0 <= y ==> t as real <= y < t as real + 1.0
    ensures y < 0.0 ==> t as real - 1.0 < y <= t as real
  {
    if 0.0 <= y then y.Floor else -((-y).Floor)
  }

  /** JavaScript's `x % 360`: a truncated remainder, with the sign of x. */
  function JsRem360(x: real): (r: real)
    ensures 0.0 <= x ==> 0.0 <= r < 360.0
    ensures x < 0.0 ==> -360.0 < r <= 0.0
    ensures Congruent360(r, x)
  {
    var t := Trunc(x / 360.0);
    WholeTurnsRemoved(x, t);
    x - 360.0 * t as real
  }

  /** The Euclidean reduction of a bearing into [0, 360). */
  function Mod360(x: real): (r: real)
    ensures 0.0 <= r < 360.0
    ensures Congruent360(r, x)
  {
    var n := (x / 360.0).Floor;
    WholeTurnsRemoved(x, n);
    x - 360.0 * n as real
  }

  /** Taking n whole turns off x leaves 360 times the part of x / 360 beyond
      n, in the same direction as x. */
  lemma WholeTurnsRemoved(x: real, n: int)
    ensures x - 360.0 * n as real == 360.0 * (x / 360.0 - n as real)
    ensures Congruent360(x - 360.0 * n as real, x)
  {
    var q := x / 360.0;
    assert x == 360.0 * q;
    var r := x - 360.0 * n as real;
    assert r - x == -360.0 * n as real;
    assert (r - x) / 360.0 == (-n) as real;
    assert ((-n) as real).Floor == -n;
  }

  lemma CongruentSymmetric(a: real, b: real)
    requires Congruent360(a, b)
    ensures Congruent360(b, a)
  {
    var y := (a - b) / 360.0;
    var n := y.Floor;
    assert n as real == y;
    assert (b - a) / 360.0 == -y;
    assert ((-n) as real).Floor == -n;
  }

  lemma CongruentTransitive(a: real, b: real, c: real)
    requires Congruent360(a, b) && Congruent360(b, c)
    ensures Congruent360(a, c)
  {
    var y, z := (a - b) / 360.0, (b - c) / 360.0;
    var m, n := y.Floor, z.Floor;
    assert m as real == y && n as real == z;
    assert (a - c) / 360.0 == y + z;
    assert ((m + n) as real).Floor == m + n;
  }

  /** Congruence is compatible with addition and subtraction. */
  lemma CongruentAdd(a: real, b: real, c: real, d: real)
    requires Congruent360(a, b) && Congruent360(c, d)
    ensures Congruent360(a + c, b + d)
  {
    var y, z := (a - b) / 360.0, (c - d) / 360.0;
    var m, n := y.Floor, z.Floor;
    assert m as real == y && n as real == z;
    assert ((a + c) - (b + d)) / 360.0 == y + z;
    assert ((m + n) as real).Floor == m + n;
  }

  lemma CongruentSub(a: real, b: real, c: real, d: real)
    requires Congruent360(a, b) && Congruent360(c, d)
    ensures Congruent360(a - c, b - d)
  {
    var y, z := (a - b) / 360.0, (c - d) / 360.0;
    var m, n := y.Floor, z.Floor;
    assert m as real == y && n as real == z;
    assert ((a - c) - (b - d)) / 360.0 == y - z;
    assert ((m - n) as real).Floor == m - n;
  }

  /** Within one turn, a direction has a single representative. */
  lemma CongruentInRangeEqual(a: real, b: real)
    requires 0.0 <= a < 360.0 && 0.0 <= b < 360.0
    requires Congruent360(a, b)
    ensures a == b
  {
    var n := ((a - b) / 360.0).Floor;
    assert -1.0 < (a - b) / 360.0 < 1.0;
    assert n == 0;
  }

  /** The remainder followed by "add 360 when negative" is exactly the
      Euclidean reduction: it lands in [0, 360) for every real input. */
  lemma FoldedRemainderIsMod360(x: real)
    ensures (if JsRem360(x) < 0.0 then JsRem360(x) + 360.0 else JsRem360(x)) == Mod360(x)
  {
    var r := JsRem360(x);
    var f := if r < 0.0 then r + 360.0 else r;
    if r < 0.0 {
      assert (f - r) / 360.0 == 1.0;
      CongruentTransitive(f, r, x);
    }
    assert Congruent360(f, x);
    CongruentSymmetric(Mod360(x), x);
    CongruentTransitive(f, x, Mod360(x));
    CongruentInRangeEqual(f, Mod360(x));
  }
}
