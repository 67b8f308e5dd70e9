/** The numeric primitives the calculator relies on: JavaScript's Math.PI,
    the transcendental functions of its Math object (left uninterpreted),
    Math.round, the one-decimal rounding used for every displayed value,
    and the truncated remainder of the `%` operator. */
module Numerics {

  /** Math.PI */
  const PI: real := 3.141592653589793

  /** The transcendental part of JavaScript's Math object. Nothing is
      assumed about these functions except what Lawful states. */
  datatype Math = Math(
    sin: real -> real,
    cos: real -> real,
    atan2: (real, real) -> real,
    sqrt: real -> real)

  /** The only facts about Math the calculator depends on. */
  ghost predicate Lawful(m: Math)
  {
    (forall y, x :: -PI < m.atan2(y, x) <= PI) &&
    (forall x :: 0.0 <= x ==> m.atan2(0.0, x) == 0.0) &&
    (forall x :: 0.0 <= x ==> 0.0 <= m.sqrt(x) && m.sqrt(x) * m.sqrt(x) == x) &&
    (forall x, y :: 0.0 <= x <= y ==> m.sqrt(x) <= m.sqrt(y))
  }

  function Abs(x: real): (r: real)
    ensures 0.0 <= r && (r == x || r == -x)
  {
    if x < 0.0 then -x else x
  }

  /** sqrt undoes squaring on non-negative numbers. */
  lemma SqrtOfSquare(m: Math, z: real)
    requires Lawful(m)
    requires 0.0 <= z
    ensures m.sqrt(z * z) == z
  {
    var s := m.sqrt(z * z);
    assert 0.0 <= s && s * s == z * z;
    if s < z {
      SquareStrictlyMonotone(s, z);
    } else if z < s {
      SquareStrictlyMonotone(z, s);
    }
  }

  /** A value between two squares has its square root between their roots. */
  lemma SqrtBetween(m: Math, lo: real, z: real, hi: real)
    requires Lawful(m)
    requires 0.0 <= lo && 0.0 <= hi && lo * lo <= z <= hi * hi
    ensures lo <= m.sqrt(z) <= hi
  {
    MulLeft(lo, 0.0, lo);
    SqrtOfSquare(m, lo);
    SqrtOfSquare(m, hi);
    assert m.sqrt(lo * lo) <= m.sqrt(z);
    assert m.sqrt(z) <= m.sqrt(hi * hi);
  }

  lemma SquareStrictlyMonotone(a: real, b: real)
    requires 0.0 <= a < b
    ensures a * a < b * b
  {
    calc {
      a * a;
    <= { MulLeft(a, a, b); }
      a * b;
    < { assert b * b - a * b == (b - a) * b; }
      b * b;
    }
  }

  lemma MulLeft(c: real, x: real, y: real)
    requires 0.0 <= c && x <= y
    ensures c * x <= c * y
  {
    assert c * y - c * x == c * (y - x);
  }

  /** Math.round: the nearest integer, halves toward +infinity. */
  function JsRound(y: real): (r: int)
    ensures y - 0.5 < r as real <= y + 0.5
  {
    (y + 0.5).Floor
  }

  /** Math.round(x * 10) / 10, the rounding applied to every displayed value. */
  function Round1(x: real): (r: real)
    ensures (r * 10.0).Floor as real == r * 10.0
    ensures x - 0.05 < r <= x + 0.05
  {
    JsRound(x * 10.0) as real / 10.0
  }

  /** Rounding again changes nothing. */
  lemma Round1Idempotent(x: real)
    ensures Round1(Round1(x)) == Round1(x)
  {
    var k := JsRound(x * 10.0);
    assert Round1(x) * 10.0 == k as real;
    assert JsRound(k as real) == k;
  }

  /** A value exactly halfway between two tenths goes to the upper one. */
  lemma Round1HalfUp(x: real)
    requires (x * 10.0 + 0.5).Floor as real == x * 10.0 + 0.5
    ensures Round1(x) == x + 0.05
  {
  }

  lemma Round1NegativeHalf()
    ensures Round1(-0.05) == 0.0
    ensures Round1(0.05) == 0.1
  {
    Round1HalfUp(-0.05);
    Round1HalfUp(0.05);
  }

  /** Rounding never reverses the order of two values. */
  lemma Round1Monotone(x: real, y: real)
    requires x <= y
    ensures Round1(x) <= Round1(y)
  {
    assert (x * 10.0 + 0.5).Floor <= (y * 10.0 + 0.5).Floor;
  }

  /** A bound that is itself a multiple of 0.1 survives rounding. */
  lemma Round1WithinTenths(x: real, lo: int, hi: int)
    requires lo as real / 10.0 <= x <= hi as real / 10.0
    ensures lo as real / 10.0 <= Round1(x) <= hi as real / 10.0
  {
    Round1Monotone(lo as real / 10.0, x);
    Round1Monotone(x, hi as real / 10.0);
    assert JsRound(lo as real) == lo;
    assert JsRound(hi as real) == hi;
  }

  /** Integer part of x, rounding toward zero. */
  function Trunc(x: real): (r: int)
    ensures 0.0 <= x ==> 0.0 <= r as real <= x < r as real + 1.0
    ensures x < 0.0 ==> r as real - 1.0 < x <= r as real <= 0.0
  {
    if 0.0 <= x then x.Floor else -((-x).Floor)
  }

  /** JavaScript's `x % 360`: the remainder takes the sign of the dividend. */
  function JsRem360(x: real): (r: real)
    ensures 0.0 <= x ==> 0.0 <= r < 360.0
    ensures x < 0.0 ==> -360.0 < r <= 0.0
    ensures ((x - r) / 360.0).Floor as real == (x - r) / 360.0
  {
    x - 360.0 * Trunc(x / 360.0) as real
  }
}
