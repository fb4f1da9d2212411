/**
 * Numeric helpers: the C# operators the model needs over unbounded reals.
 * Dafny's own `%` is Euclidean; C# keeps the sign of the dividend, and
 * `Math.Round` rounds halves to the even neighbour.
 */
module Numeric {
  /** A double that may be non-finite, as produced by a C# floating-point division. */
  datatype Double = Finite(value: real) | PositiveInfinity | NegativeInfinity | NaN

  /** IEEE 754 division of two finite doubles: x/0 is an infinity, 0/0 is NaN. */
  function Divide(a: real, b: real): (r: Double)
    ensures r.NaN? <==> a == 0.0 && b == 0.0
    ensures r.Finite? <==> b != 0.0
    ensures r.Finite? ==> r.value * b == a
  {
    if b != 0.0 then Finite(a / b)
    else if a == 0.0 then NaN
    else if a > 0.0 then PositiveInfinity
    else NegativeInfinity
  }

  function Abs(x: real): (r: real)
    ensures r >= 0.0 && (r == x || r == -x)
  {
    if x < 0.0 then -x else x
  }

  function Max(a: real, b: real): (r: real)
    ensures r >= a && r >= b && (r == a || r == b)
  {
    if a >= b then a else b
  }

  function Min(a: real, b: real): (r: real)
    ensures r <= a && r <= b && (r == a || r == b)
  {
    if a <= b then a else b
  }

  function MaxInt(a: int, b: int): (r: int)
    ensures r >= a && r >= b && (r == a || r == b)
  {
    if a >= b then a else b
  }

  function MinInt(a: int, b: int): (r: int)
    ensures r <= a && r <= b && (r == a || r == b)
  {
    if a <= b then a else b
  }

  /** A C# cast from double to int: truncation toward zero. */
  function Truncate(x: real): (r: int)
    ensures x >= 0.0 ==> r >= 0 && r as real <= x < r as real + 1.0
    ensures x < 0.0 ==> r <= 0 && r as real - 1.0 < x <= r as real
  {
    if x >= 0.0 then x.Floor else -((-x).Floor)
  }

  /** C#'s integer `/`: the quotient truncated toward zero. */
  function Quotient(a: int, b: int): (r: int)
    requires b > 0
    ensures a >= 0 ==> 0 <= r && r * b <= a < r * b + b
    ensures a < 0 ==> r <= 0 && r * b - b < a <= r * b
  {
    if a >= 0 then a / b else -((-a) / b)
  }

  /** `d` is a whole multiple of `m`. */
  predicate IsMultipleOf(d: real, m: real)
    requires m != 0.0
  {
    (d / m).Floor as real == d / m
  }

  /**
   * C#'s `a % m` on doubles for a positive modulus: the remainder of the
   * truncated quotient, so its sign follows the dividend.
   */
  function CsRemainder(a: real, m: real): (r: real)
    requires m > 0.0
    ensures -m < r < m
    ensures a >= 0.0 ==> r >= 0.0
    ensures a <= 0.0 ==> r <= 0.0
    ensures IsMultipleOf(a - r, m)
    ensures -m < a < m ==> r == a
  {
    var t := Truncate(a / m);
    RemainderFacts(a, m, t);
    a - m * (t as real)
  }

  lemma RemainderFacts(a: real, m: real, t: int)
    requires m > 0.0
    requires t == Truncate(a / m)
    ensures -m < a - m * (t as real) < m
    ensures a >= 0.0 ==> a - m * (t as real) >= 0.0
    ensures a <= 0.0 ==> a - m * (t as real) <= 0.0
    ensures IsMultipleOf(a - (a - m * (t as real)), m)
    ensures -m < a < m ==> t == 0
  {
    var q := a / m;
    assert a == m * q;
    RemainderBounds(a, m, q, t);
    MultipleFact(m, t);
    if -m < a < m {
      SmallQuotient(a, m, q);
    }
  }

  lemma RemainderBounds(a: real, m: real, q: real, t: int)
    requires m > 0.0 && a == m * q && t == Truncate(q)
    ensures -m < a - m * (t as real) < m
    ensures a >= 0.0 ==> a - m * (t as real) >= 0.0
    ensures a <= 0.0 ==> a - m * (t as real) <= 0.0
  {
    if q >= 0.0 {
      BracketAbove(a, m, q, t as real);
      if a <= 0.0 {
        NonNegFactor(m, q);
        assert q == 0.0;
      }
    } else {
      BracketBelow(a, m, q, t as real);
      if a >= 0.0 {
        NonNegFactor(m, q);
      }
    }
  }

  lemma BracketAbove(a: real, m: real, q: real, tr: real)
    requires m > 0.0 && a == m * q && tr <= q < tr + 1.0
    ensures 0.0 <= a - m * tr < m
  {
    var lo := q - tr;
    var hi := tr + 1.0 - q;
    MulNonNeg(m, lo);
    MulPos(m, hi);
    assert m * lo == a - m * tr;
    assert m * hi == m * tr + m - a;
  }

  lemma BracketBelow(a: real, m: real, q: real, tr: real)
    requires m > 0.0 && a == m * q && tr - 1.0 < q <= tr
    ensures -m < a - m * tr <= 0.0
  {
    var lo := q - tr + 1.0;
    var hi := tr - q;
    MulPos(m, lo);
    MulNonNeg(m, hi);
    assert m * lo == a - m * tr + m;
    assert m * hi == m * tr - a;
  }

  lemma MulPos(m: real, z: real)
    requires m > 0.0 && z > 0.0
    ensures m * z > 0.0
  {
  }

  lemma MulNonNeg(m: real, z: real)
    requires m > 0.0 && z >= 0.0
    ensures m * z >= 0.0
  {
  }

  lemma PosFactor(m: real, z: real)
    requires m > 0.0 && m * z > 0.0
    ensures z > 0.0
  {
  }

  lemma NonNegFactor(m: real, z: real)
    requires m > 0.0 && m * z >= 0.0
    ensures z >= 0.0
  {
  }

  lemma SmallQuotient(a: real, m: real, q: real)
    requires m > 0.0 && -m < a < m && a == m * q
    ensures Truncate(q) == 0
  {
    assert m * (1.0 - q) == m - a;
    PosFactor(m, 1.0 - q);
    assert m * (1.0 + q) == m + a;
    PosFactor(m, 1.0 + q);
  }

  lemma MultipleFact(m: real, t: int)
    requires m > 0.0
    ensures IsMultipleOf(m * (t as real), m)
  {
    assert (m * (t as real)) / m == t as real;
  }

  lemma ScaledBracket(m: real, tr: real, q: real)
    requires m > 0.0 && tr <= q < tr + 1.0
    ensures m * tr <= m * q < m * tr + m
  {
    MulMonotone(m, tr, q);
    MulStrict(m, q, tr + 1.0);
  }

  lemma ScaledBracketNeg(m: real, tr: real, q: real)
    requires m > 0.0 && tr - 1.0 < q <= tr
    ensures m * tr - m < m * q <= m * tr
  {
    MulStrict(m, tr - 1.0, q);
    MulMonotone(m, q, tr);
  }

  lemma MulMonotone(m: real, x: real, y: real)
    requires m > 0.0 && x <= y
    ensures m * x <= m * y
  {
  }

  lemma MulStrict(m: real, x: real, y: real)
    requires m > 0.0 && x < y
    ensures m * x < m * y
  {
  }

  /** `Math.Round(x)`: the nearest integer, a tie going to the even neighbour. */
  function RoundHalfEven(x: real): (r: int)
    ensures Abs(x - r as real) <= 0.5
    ensures Abs(x - r as real) == 0.5 ==> r % 2 == 0
    ensures x == x.Floor as real ==> r == x.Floor
  {
    var f := x.Floor;
    var d := x - f as real;
    if d < 0.5 then f
    else if d > 0.5 then f + 1
    else if f % 2 == 0 then f
    else f + 1
  }

  function Pow10(digits: nat): (r: real)
    ensures r >= 1.0
  {
    if digits == 0 then 1.0 else 10.0 * Pow10(digits - 1)
  }

  /** `Math.Round(x, digits)` with banker's rounding at the last kept digit. */
  function RoundTo(x: real, digits: nat): (r: real)
    ensures Abs(x - r) <= 0.5 / Pow10(digits)
  {
    var s := Pow10(digits);
    var n := RoundHalfEven(x * s);
    RoundToBound(x, s, n);
    n as real / s
  }

  lemma RoundToBound(x: real, s: real, n: int)
    requires s >= 1.0
    requires Abs(x * s - n as real) <= 0.5
    ensures Abs(x - n as real / s) <= 0.5 / s
  {
    var d := x * s - n as real;
    assert x - n as real / s == d / s;
    if d >= 0.0 {
      DivMonotone(s, 0.0, d);
      DivMonotone(s, d, 0.5);
    } else {
      assert d / s == -((-d) / s);
      DivMonotone(s, -d, 0.5);
    }
  }

  lemma DivMonotone(s: real, x: real, y: real)
    requires s > 0.0 && x <= y
    ensures x / s <= y / s
  {
    var inv := 1.0 / s;
    assert inv > 0.0;
    assert x / s == x * inv;
    assert y / s == y * inv;
    MulMonotone(inv, x, y);
  }

  /** Decimal digits of a natural number, as `ToString()` prints it. */
  function NatToString(n: nat): (s: string)
    ensures |s| >= 1
    ensures forall i :: 0 <= i < |s| ==> '0' <= s[i] <= '9'
    decreases n
  {
    if n < 10 then [DigitChar(n)] else NatToString(n / 10) + [DigitChar(n % 10)]
  }

  function DigitChar(d: nat): (c: char)
    requires d < 10
    ensures '0' <= c <= '9'
    ensures c as int == '0' as int + d
  {
    ('0' as int + d) as char
  }

  /** `int.ToString()`: a leading '-' for negative values. */
  function IntToString(i: int): (s: string)
    ensures |s| >= 1
    ensures i >= 0 <==> s[0] != '-'
  {
    if i >= 0 then NatToString(i) else "-" + NatToString(-i)
  }

  /** Sum of a sequence of reals, first to last. */
  function SumReals(s: seq<real>): real
  {
    if s == [] then 0.0 else SumReals(s[..|s| - 1]) + s[|s| - 1]
  }
}
