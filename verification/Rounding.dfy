/**
 Rounding half away from zero, the only rounding the program uses.

 Floating point values are modelled as exact reals. Every conversion between
 micro-beats and microseconds is the rounding of a quotient of two integers,
 so the conversions are stated with RoundDiv and tied back to Llround by
 LlroundIsRoundDiv.
 */
module Rounding {

  /** Rounds to the nearest integer, halves away from zero. */
  function Llround(v: real): int {
    if v >= 0.0 then (v + 0.5).Floor else -((-v + 0.5).Floor)
  }

  /** Rounds the fraction n/d to the nearest integer, halves away from zero. */
  function RoundDiv(n: int, d: int): int
    requires d > 0
  {
    if n >= 0 then (2 * n + d) / (2 * d) else -((-2 * n + d) / (2 * d))
  }

  function Abs(x: int): int {
    if x < 0 then -x else x
  }

  lemma RealProduct(x: real, y: real, d: real)
    requires d > 0.0
    ensures x < y ==> x * d < y * d
    ensures x * d < y * d ==> x < y
  {
    assert (y - x) * d == y * d - x * d;
  }

  lemma FloorOfQuotient(a: int, b: int)
    requires b > 0
    ensures (a as real / b as real).Floor == a / b
  {
    QuoBounds(a, b);
    FloorIs(a as real / b as real, a, b, a / b);
  }

  lemma FloorIs(x: real, a: int, b: int, q: int)
    requires b > 0 && q * b <= a < q * b + b && x * b as real == a as real
    ensures x.Floor == q
  {
    var v := CastBounds(a, b, q);
    QuotientLies(x, b as real, q as real, a as real, v);
  }

  lemma CastBounds(a: int, b: int, q: int) returns (v: real)
    requires q * b <= a < q * b + b
    ensures v == q as real * b as real && v <= a as real < v + b as real
  {
    var product := q * b;
    v := product as real;
  }

  lemma QuoBounds(a: int, b: int)
    requires b > 0
    ensures (a / b) * b <= a < (a / b) * b + b
  {
    assert a == b * (a / b) + a % b;
  }

  lemma QuotientLies(x: real, d: real, y: real, u: real, v: real)
    requires d > 0.0 && u == x * d && v == y * d && v <= u < v + d
    ensures y <= x < y + 1.0
  {
    assert (y + 1.0) * d == v + d;
    RealProduct(x, y, d);
    RealProduct(x, y + 1.0, d);
  }

  /** RoundDiv is Llround of the exact quotient. */
  lemma LlroundIsRoundDiv(n: int, d: int)
    requires d > 0
    ensures Llround(n as real / d as real) == RoundDiv(n, d)
  {
    if n >= 0 {
      HalfAdded(n, d);
      FloorOfQuotient(2 * n + d, 2 * d);
    } else {
      HalfAdded(-n, d);
      FloorOfQuotient(-2 * n + d, 2 * d);
      assert (-n) as real / d as real == -(n as real / d as real);
      assert n as real / d as real < 0.0;
    }
  }

  lemma HalfAdded(m: nat, d: int)
    requires d > 0
    ensures m as real / d as real >= 0.0
    ensures m as real / d as real + 0.5 == (2 * m + d) as real / (2 * d) as real
  {
    var r := d as real;
    assert (2 * d) as real == 2.0 * r;
    assert (2 * m + d) as real == 2.0 * m as real + r;
    var z := m as real / r;
    assert z * r == m as real;
    assert (z + 0.5) * (2.0 * r) == 2.0 * (z * r) + r;
    QuotientIs((2 * m + d) as real, z + 0.5, (2 * d) as real);
  }

  lemma QuotientIs(p: real, z: real, w: real)
    requires w != 0.0 && z * w == p
    ensures p / w == z
  {}

  /** An integer is its own rounding. */
  lemma LlroundInteger(n: int)
    ensures Llround(n as real) == n
  {}

  /** Rounding is odd: this is what makes conversions there and back cancel. */
  lemma RoundOdd(n: int, d: int)
    requires d > 0
    ensures RoundDiv(-n, d) == -RoundDiv(n, d)
  {}

  lemma MulAtLeast(d: int, e: int)
    requires d >= 0 && e >= 1
    ensures d * e >= d
  {}

  lemma SmallMultipleIsZero(d: int, e: int)
    requires d > 0 && -d < d * e < d
    ensures e == 0
  {
    if e >= 1 {
      MulAtLeast(d, e);
    } else if e <= -1 {
      assert d * -e == -(d * e);
      MulAtLeast(d, -e);
    }
  }

  /** r is as near to n/d as any integer, and away from zero when two are equally near. */
  predicate Nearest(n: int, d: int, r: int) {
    var excess := 2 * (d * r) - 2 * n;
    if n >= 0 then -d < excess <= d else -d <= excess < d
  }

  lemma RoundIsNearest(n: int, d: int)
    requires d > 0
    ensures Nearest(n, d, RoundDiv(n, d))
  {
    var m := if n >= 0 then n else -n;
    var q := (2 * m + d) / (2 * d);
    QuoBounds(2 * m + d, 2 * d);
    Halved(m, d, q);
    assert d * -q == -(d * q);
    assert RoundDiv(n, d) == if n >= 0 then q else -q;
    hide RoundDiv;
  }

  lemma Halved(m: int, d: int, q: int)
    requires q * (2 * d) <= 2 * m + d < q * (2 * d) + 2 * d
    ensures -d < 2 * (d * q) - 2 * m <= d
  {
    assert q * (2 * d) == 2 * (d * q);
  }

  /** The rounding is within one half of the fraction. */
  lemma RoundBound(n: int, d: int)
    requires d > 0
    ensures -d <= 2 * (d * RoundDiv(n, d)) - 2 * n <= d
  {
    RoundIsNearest(n, d);
    hide RoundDiv;
  }

  lemma NearestIsUnique(n: int, d: int, r: int, s: int)
    requires d > 0 && Nearest(n, d, r) && Nearest(n, d, s)
    ensures r == s
  {
    assert d * (r - s) == d * r - d * s;
    SmallMultipleIsZero(d, r - s);
  }

  /** The rounding is the nearest integer, at a tie the one away from zero, and nothing else is. */
  lemma RoundIff(n: int, d: int, r: int)
    requires d > 0
    ensures RoundDiv(n, d) == r <==> Nearest(n, d, r)
  {
    RoundIsNearest(n, d);
    hide RoundDiv, Nearest;
    if Nearest(n, d, r) {
      NearestIsUnique(n, d, r, RoundDiv(n, d));
    }
  }

  /** An integer strictly within one half of the fraction is its rounding. */
  lemma RoundUnique(n: int, d: int, r: int)
    requires d > 0
    requires -d < 2 * (d * r) - 2 * n < d
    ensures RoundDiv(n, d) == r
  {
    RoundIff(n, d, r);
    hide RoundDiv;
  }

  lemma RoundMonotone(n: int, m: int, d: int)
    requires d > 0 && n <= m
    ensures RoundDiv(n, d) <= RoundDiv(m, d)
  {
    RoundBound(n, d);
    RoundBound(m, d);
    hide RoundDiv;
    OrderOfNearest(n, m, d, RoundDiv(n, d), RoundDiv(m, d));
  }

  lemma OrderOfNearest(n: int, m: int, d: int, r: int, s: int)
    requires d > 0 && n <= m
    requires 2 * (d * r) - 2 * n <= d && -d <= 2 * (d * s) - 2 * m
    requires n == m ==> r == s
    ensures r <= s
  {
    if r > s {
      assert d * (r - s) == d * r - d * s;
      MulAtLeast(d, r - s);
    }
  }

  lemma RoundExact(k: int, d: int)
    requires d > 0
    ensures RoundDiv(d * k, d) == k
  {
    RoundUnique(d * k, d, k);
  }
}
