/** IEEE 754 binary64 numbers as far as the division of two 32-bit integers needs them. */
module Float64 {

  function Pow2(n: nat): (r: nat)
    ensures r > 0
  {
    if n == 0 then 1 else 2 * Pow2(n - 1)
  }

  lemma {:induction false} Pow2Add(a: nat, b: nat)
    ensures Pow2(a + b) == Pow2(a) * Pow2(b)
  {
    if a > 0 {
      Pow2Add(a - 1, b);
    }
  }

  const HALF_RANGE: int := 0x10_0000_0000_0000
  const RANGE: int := 0x20_0000_0000_0000

  /** y is the significand m, of at most 53 bits, times a power of two between 2^-1074 and 2^971. */
  predicate IsScaled(y: real, m: int, up: nat, down: nat) {
    -RANGE < m < RANGE && up <= 971 && down <= 1074 && y * (Pow2(down) as real) == (m * Pow2(up)) as real
  }

  /** The finite numbers of the format. */
  ghost predicate IsDouble(y: real) {
    exists m: int, up: nat, down: nat :: IsScaled(y, m, up, down)
  }

  function Distance(x: real, y: real): real { if x <= y then y - x else x - y }

  /** y is a correctly rounded x: no number of the format is closer. */
  ghost predicate Nearest(x: real, y: real) {
    IsDouble(y) && forall z: real :: IsDouble(z) ==> Distance(x, y) <= Distance(x, z)
  }

  function Ceil(y: real): int { -((-y).Floor) }

  /** The exact quotient. */
  function Ratio(a: int, b: nat): real
    requires b > 0
  {
    a as real / b as real
  }

  lemma RatioTimes(a: int, b: nat)
    requires b > 0
    ensures Ratio(a, b) * (b as real) == a as real
  {}

  lemma ScaleOrder(x: real, y: real, e: real)
    requires e > 0.0
    ensures x <= y <==> x * e <= y * e
    ensures x < y <==> x * e < y * e
  {
    if x <= y { assert (y - x) * e >= 0.0; }
    if x < y { assert (y - x) * e > 0.0; }
    if x > y { assert (x - y) * e > 0.0; }
  }

  /** Ratios compare as their cross products. */
  lemma RatioOrder(a: int, b: nat, c: int, d: nat)
    requires b > 0 && d > 0
    ensures Ratio(a, b) <= Ratio(c, d) <==> a * d <= c * b
    ensures Ratio(a, b) < Ratio(c, d) <==> a * d < c * b
  {
    var x, y, e := Ratio(a, b), Ratio(c, d), (b * d) as real;
    assert e == (b as real) * (d as real);
    assert x * e == (a * d) as real by { CrossProduct(a, b, d); }
    assert y * e == (c * b) as real by { CrossProduct(c, d, b); assert (d * b) as real == e; }
    ScaleOrder(x, y, e);
  }

  lemma CrossProduct(a: int, b: nat, d: nat)
    requires b > 0 && d > 0
    ensures Ratio(a, b) * ((b * d) as real) == (a * d) as real
  {
    RatioTimes(a, b);
    var x := Ratio(a, b);
    assert x * ((b as real) * (d as real)) == (x * (b as real)) * (d as real);
  }

  lemma ScaledIsDouble(y: real, m: int, up: nat, down: nat, u: nat, d: nat)
    requires -RANGE < m < RANGE && up <= 971 && down <= 1074 && u == Pow2(up) && d == Pow2(down)
    requires y * (d as real) == (m * u) as real
    ensures IsDouble(y)
  {
    hide Pow2;
    assert IsScaled(y, m, up, down);
  }

  lemma ScaledMeans(y: real, m: int, up: nat, down: nat)
    requires IsScaled(y, m, up, down)
    ensures -RANGE < m < RANGE && y * (Pow2(down) as real) == (m * Pow2(up)) as real
  {
    hide Pow2;
  }

  lemma RatioIsDouble(m: int, down: nat)
    requires -RANGE < m < RANGE && down <= 1074
    ensures IsDouble(Ratio(m, Pow2(down)))
  {
    var d: nat := Pow2(down);
    hide Pow2, IsScaled, IsDouble;
    RatioTimes(m, d);
    UpZero(m);
    hide Ratio;
    ScaledIsDouble(Ratio(m, d), m, 0, down, Pow2(0), d);
  }

  lemma UpZero(m: int)
    ensures m * Pow2(0) == m
  {}

  lemma IntegerIsDouble(n: int)
    requires -RANGE < n < RANGE
    ensures IsDouble(n as real)
  {
    RatioIsDouble(n, 0);
  }

  lemma NegationIsDouble(y: real)
    requires IsDouble(y)
    ensures IsDouble(-y)
  {
    var m: int, up: nat, down: nat :| IsScaled(y, m, up, down);
    var d: nat, u: nat := Pow2(down), Pow2(up);
    hide Pow2;
    assert (-y) * (d as real) == -(y * (d as real));
    assert (-m) * u == -(m * u);
    ScaledIsDouble(-y, -m, up, down, u, d);
  }

  lemma NearestNegated(x: real, y: real)
    requires Nearest(x, y)
    ensures Nearest(-x, -y)
  {
    NegationIsDouble(y);
    forall z: real | IsDouble(z) ensures Distance(-x, -y) <= Distance(-x, z) {
      NegationIsDouble(z);
      assert Distance(x, y) <= Distance(x, -z);
    }
    hide IsDouble;
  }

  // ----- a correctly rounded quotient and its ceiling -----

  lemma SmallPowers()
    ensures Pow2(31) == 0x8000_0000 && Pow2(52) == HALF_RANGE
  {
    assert Pow2(8) == 256;
    Pow2Add(8, 8);
    Pow2Add(8, 7);
    Pow2Add(16, 15);
    Pow2Add(16, 5);
    Pow2Add(31, 21);
  }

  /** The first power of two that reaches b. */
  function BitsFrom(b: nat, i: nat): (j: nat)
    requires 0 < b <= 0x7FFF_FFFF && i <= 31 && (i > 0 ==> Pow2(i - 1) < b)
    ensures b <= Pow2(j) < 2 * b && j <= 31
    decreases 31 - i
  {
    SmallPowers();
    if b <= Pow2(i) then i else BitsFrom(b, i + 1)
  }

  /** Just below a quotient, and above every smaller integer, there is a number of the format. */
  lemma DoubleBelow(a: int, b: nat, n: int) returns (z: real)
    requires -0x8000_0000 <= a <= 0x7FFF_FFFF && 0 < b <= 0x7FFF_FFFF && (n - 1) * b < a
    ensures IsDouble(z) && (n - 1) as real < z <= Ratio(a, b)
  {
    var j: nat := BitsFrom(b, 0);
    var p: nat := Pow2(j);
    var m := (a * p) / b;
    hide Pow2;
    DivisionBounds(a * p, b, m);
    AboveInteger(a, b, n, p, m);
    SmallSignificand(a, b, p, m);
    z := Ratio(m, p);
    RatioIsDouble(m, j);
    RatioOrder(m, p, a, b);
    RatioOrder(n - 1, 1, m, p);
    assert Ratio(n - 1, 1) == (n - 1) as real;
  }

  lemma DivisionBounds(v: int, b: nat, m: int)
    requires b > 0 && m == v / b
    ensures m * b <= v < (m + 1) * b
  {}

  lemma AboveInteger(a: int, b: nat, n: int, p: nat, m: int)
    requires b > 0 && (n - 1) * b < a && b <= p && a * p < (m + 1) * b
    ensures (n - 1) * p < m
  {
    var k := n - 1;
    assert (a - k * b) * p >= p by { Multiple(a - k * b, p); }
    assert (k * b) * p == (k * p) * b by { Reorder(k, b, p); }
    if m <= k * p {
      Monotone(m + 1, k * p + 1, b);
    }
  }

  lemma Multiple(a: int, p: nat)
    requires a >= 1
    ensures a * p >= p
  {}

  lemma Reorder(k: int, b: int, p: int)
    ensures (k * b) * p == (k * p) * b
  {}

  lemma Monotone(x: int, y: int, b: nat)
    requires x <= y
    ensures x * b <= y * b
  {}

  lemma SmallSignificand(a: int, b: nat, p: nat, m: int)
    requires -0x8000_0000 <= a <= 0x7FFF_FFFF && 0 < b && p <= 2 * b && m * b <= a * p < (m + 1) * b
    ensures -RANGE < m < RANGE
  {
    if a >= 0 {
      Scaled(a, b, p);
    } else {
      Scaled(-a, b, p);
    }
    assert (-a) * p == -(a * p);
    if m >= RANGE {
      Monotone(RANGE, m, b);
    }
    if m <= -RANGE {
      Monotone(m + 1, -RANGE + 1, b);
    }
  }

  lemma Scaled(a: nat, b: nat, p: nat)
    requires a <= 0x8000_0000 && p <= 2 * b
    ensures 0 <= a * p <= 0x1_0000_0000 * b
  {
    Monotone(p, 2 * b, a);
    Monotone(a, 0x8000_0000, 2 * b);
  }

  /** However a quotient of 32-bit integers is rounded to a nearest number of the format, rounding it up to an integer
      gives the integer quotient rounded up. */
  lemma CeilOfNearest(a: int, b: nat, n: int, y: real)
    requires -0x8000_0000 <= a <= 0x7FFF_FFFF && 0 < b <= 0x7FFF_FFFF && (n - 1) * b < a <= n * b
    requires Nearest(Ratio(a, b), y)
    ensures Ceil(y) == n
  {
    QuotientInRange(a, b, n);
    RatioOrder(a, b, n, 1);
    assert Ratio(n, 1) == n as real;
    IntegerIsDouble(n);
    var z := DoubleBelow(a, b, n);
    hide IsDouble, Ratio;
    assert Distance(Ratio(a, b), y) <= Distance(Ratio(a, b), n as real);
    assert Distance(Ratio(a, b), y) <= Distance(Ratio(a, b), z);
    assert (n - 1) as real < y <= n as real;
  }

  lemma QuotientInRange(a: int, b: nat, n: int)
    requires -0x8000_0000 <= a <= 0x7FFF_FFFF && 0 < b && (n - 1) * b < a <= n * b
    ensures -0x8000_0000 <= n <= 0x7FFF_FFFF
  {
    if n > 0x7FFF_FFFF {
      Monotone(0x7FFF_FFFF, n - 1, b);
    }
    if n < -0x8000_0000 {
      Monotone(n, -0x8000_0001, b);
    }
  }

  // ----- the division itself: round to nearest, ties to even -----

  /** How far the quotient has to be scaled up to have 53 bits before the point. */
  function Scale(a: nat, b: nat, i: nat): (j: nat)
    requires 0 < a <= 0x8000_0000 && 0 < b <= 0x7FFF_FFFF && i <= 83
    requires i > 0 ==> a * Pow2(i - 1) < HALF_RANGE * b
    ensures HALF_RANGE * b <= a * Pow2(j) && 0 < j <= 83 && a * Pow2(j) < RANGE * b
    decreases 83 - i
  {
    ScaleStops(a, b, i);
    if HALF_RANGE * b <= a * Pow2(i) then i else Scale(a, b, i + 1)
  }

  lemma ScaleStops(a: nat, b: nat, i: nat)
    requires 0 < a <= 0x8000_0000 && 0 < b <= 0x7FFF_FFFF
    ensures i == 83 ==> HALF_RANGE * b <= a * Pow2(i)
    ensures i == 0 ==> a * Pow2(i) < HALF_RANGE * b
    ensures i > 0 ==> a * Pow2(i) == 2 * (a * Pow2(i - 1))
  {
    SmallPowers();
    Pow2Add(52, 31);
    if i == 83 {
      Multiple(a, Pow2(83));
    }
  }

  /** The significand: the scaled quotient, rounded. */
  function Significand(v: nat, b: nat): (m: nat)
    requires 0 < b && HALF_RANGE * b <= v < RANGE * b
    ensures HALF_RANGE <= m <= RANGE
  {
    DivisionBounds(v, b, v / b);
    SignificandRange(v, b);
    var m, r := v / b, v % b;
    if 2 * r > b || (2 * r == b && m % 2 == 1) then m + 1 else m
  }

  lemma SignificandRange(v: nat, b: nat)
    requires 0 < b && HALF_RANGE * b <= v < RANGE * b
    ensures HALF_RANGE <= v / b < RANGE
  {
    var m := v / b;
    DivisionBounds(v, b, m);
    if m < HALF_RANGE { Monotone(m + 1, HALF_RANGE, b); }
    if m >= RANGE { Monotone(RANGE, m, b); }
  }

  function PositiveQuotient(a: nat, b: nat): real
    requires 0 < a <= 0x8000_0000 && 0 < b <= 0x7FFF_FFFF
  {
    var j := Scale(a, b, 0);
    Ratio(Significand(a * Pow2(j), b), Pow2(j))
  }

  /** float64(a) / float64(b). */
  function Quotient(a: int, b: nat): real
    requires -0x8000_0000 <= a <= 0x7FFF_FFFF && 0 < b <= 0x7FFF_FFFF
  {
    if a == 0 then 0.0 else if a > 0 then PositiveQuotient(a, b) else -PositiveQuotient(-a, b)
  }

  /** Between neighbouring multiples of a power of two there is no number of the format, once the significand has
      53 bits. */
  lemma NoDoubleBetween(m: int, j: nat, z: real)
    requires HALF_RANGE <= m && IsDouble(z)
    ensures !(m as real < z * (Pow2(j) as real) < (m + 1) as real)
  {
    hide IsScaled, Pow2;
    var k: int, up: nat, down: nat :| IsScaled(z, k, up, down);
    ScaledMeans(z, k, up, down);
    NotBetween(m, j, z, k, up, down, Pow2(down), Pow2(up), Pow2(j));
  }

  lemma NotBetween(m: int, j: nat, z: real, k: int, up: nat, down: nat, d: nat, u: nat, p: nat)
    requires d == Pow2(down) && u == Pow2(up) && p == Pow2(j) && HALF_RANGE <= m && k < RANGE
    requires z * (d as real) == (k * u) as real
    ensures !(m as real < z * (p as real) < (m + 1) as real)
  {
    Doubled(down, up, j);
    hide Pow2;
    if down <= up + j {
      var e: nat := Pow2(up + j - down);
      Pow2Add(up, j);
      Pow2Add(up + j - down, down);
      WholeProduct(z, k, d, u, p, e);
      OnTheGrid(m, k * e, z * (p as real));
    } else {
      var e: nat := Pow2(down - up - j);
      Pow2Add(up, j);
      Pow2Add(down - up - j, up + j);
      FineProduct(z, k, d, u, p, e);
      TooFine(m, k, z * (p as real), e);
    }
  }

  lemma OnTheGrid(m: int, i: int, t: real)
    requires t == i as real
    ensures !(m as real < t < (m + 1) as real)
  {
    if i <= m {
      assert t <= m as real;
    } else {
      assert t >= (m + 1) as real;
    }
  }

  lemma Doubled(down: nat, up: nat, j: nat)
    ensures down > up + j ==> Pow2(down - up - j) >= 2
  {}

  lemma TooFine(m: int, k: int, t: real, e: nat)
    requires HALF_RANGE <= m && k < RANGE && e >= 2 && t * (e as real) == k as real
    ensures t <= m as real
  {
    Monotone(2, e, m);
    assert (m as real) * (e as real) == (m * e) as real;
    ScaleOrder(t, m as real, e as real);
  }

  /** A number whose last bit is not below the grid lies on it. */
  lemma WholeProduct(z: real, k: int, d: nat, u: nat, p: nat, e: nat)
    requires d > 0 && u * p == e * d && z * (d as real) == (k * u) as real
    ensures z * (p as real) == (k * e) as real
  {
    var x, y := z * (p as real), (k * e) as real;
    assert x * (d as real) == (z * (d as real)) * (p as real);
    assert (k * u) * p == (k * e) * d by { assert (k * u) * p == k * (u * p); assert (k * e) * d == k * (e * d); }
    assert ((k * u) as real) * (p as real) == ((k * u) * p) as real;
    assert y * (d as real) == ((k * e) * d) as real;
    ScaleOrder(x, y, d as real);
    ScaleOrder(y, x, d as real);
  }

  /** One whose last bit is below the grid has its significand at a finer scale. */
  lemma FineProduct(z: real, k: int, d: nat, u: nat, p: nat, e: nat)
    requires u > 0 && d == e * (u * p) && z * (d as real) == (k * u) as real
    ensures (z * (p as real)) * (e as real) == k as real
  {
    var x, y := (z * (p as real)) * (e as real), k as real;
    assert d as real == (e as real) * ((u as real) * (p as real)) by { assert (u * p) as real == (u as real) * (p as real); }
    assert x * (u as real) == z * (d as real) by {
      assert x * (u as real) == z * ((p as real) * (e as real) * (u as real));
    }
    assert y * (u as real) == (k * u) as real;
    ScaleOrder(x, y, u as real);
    ScaleOrder(y, x, u as real);
  }

  /** The significand is the nearer neighbour of the scaled quotient. */
  lemma SignificandIsNearer(v: nat, b: nat, m: nat)
    requires 0 < b && HALF_RANGE * b <= v < RANGE * b && m == Significand(v, b)
    ensures
      var f := v / b;
      && f * b <= v < (f + 1) * b
      && (m == f || m == f + 1)
      && (m == f ==> v - f * b <= (f + 1) * b - v)
      && (m == f + 1 ==> (f + 1) * b - v <= v - f * b)
  {
    DivisionBounds(v, b, v / b);
    assert v == (v / b) * b + v % b;
  }

  lemma PositiveQuotientIsNearest(a: nat, b: nat)
    requires 0 < a <= 0x8000_0000 && 0 < b <= 0x7FFF_FFFF
    ensures Nearest(Ratio(a, b), PositiveQuotient(a, b))
  {
    var j: nat := Scale(a, b, 0);
    var v: nat := a * Pow2(j);
    var m := Significand(v, b);
    assert PositiveQuotient(a, b) == Ratio(m, Pow2(j));
    SignificandRange(v, b);
    SignificandIsNearer(v, b, m);
    SignificandIsDouble(m, j);
    hide Pow2, Scale, Significand, PositiveQuotient, IsDouble, Ratio;
    NearerIsNearest(a, b, j, Pow2(j), v / b, m);
  }

  lemma NearerIsNearest(a: nat, b: nat, j: nat, p: nat, f: nat, m: nat)
    requires p == Pow2(j) && 0 < b && HALF_RANGE <= f && f * b <= a * p < (f + 1) * b
    requires m == f || m == f + 1
    requires m == f ==> a * p - f * b <= (f + 1) * b - a * p
    requires m == f + 1 ==> (f + 1) * b - a * p <= a * p - f * b
    requires IsDouble(Ratio(m, p))
    ensures Nearest(Ratio(a, b), Ratio(m, p))
  {
    hide Pow2, Ratio;
    Neighbours(a, b, p, f, m);
    forall z: real | IsDouble(z) ensures Distance(Ratio(a, b), Ratio(m, p)) <= Distance(Ratio(a, b), z) {
      OutsideNeighbours(f, j, p, z);
    }
    hide IsDouble;
  }

  lemma OutsideNeighbours(f: int, j: nat, p: nat, z: real)
    requires p == Pow2(j) && HALF_RANGE <= f && IsDouble(z)
    ensures z <= Ratio(f, p) || z >= Ratio(f + 1, p)
  {
    hide Pow2, IsDouble, Ratio;
    NoDoubleBetween(f, j, z);
    Outside(f, p, z);
  }

  lemma SignificandIsDouble(m: nat, j: nat)
    requires m <= RANGE && 0 < j <= 83
    ensures IsDouble(Ratio(m, Pow2(j)))
  {
    if m < RANGE {
      RatioIsDouble(m, j);
    } else {
      assert RANGE == 2 * HALF_RANGE && Pow2(j) == 2 * Pow2(j - 1);
      var p: nat, q: nat := Pow2(j), Pow2(j - 1);
      hide Pow2;
      RatioOrder(RANGE, p, HALF_RANGE, q);
      RatioOrder(HALF_RANGE, q, RANGE, p);
      RatioIsDouble(HALF_RANGE, j - 1);
    }
  }

  /** The quotient lies between two neighbours, and the chosen one is the nearer of them. */
  lemma Neighbours(a: nat, b: nat, p: nat, f: nat, m: nat)
    requires 0 < b && 0 < p && f * b <= a * p < (f + 1) * b
    requires m == f || m == f + 1
    requires m == f ==> a * p - f * b <= (f + 1) * b - a * p
    requires m == f + 1 ==> (f + 1) * b - a * p <= a * p - f * b
    ensures Ratio(f, p) <= Ratio(a, b) < Ratio(f + 1, p)
    ensures Distance(Ratio(a, b), Ratio(m, p)) <= Ratio(a, b) - Ratio(f, p)
    ensures Distance(Ratio(a, b), Ratio(m, p)) <= Ratio(f + 1, p) - Ratio(a, b)
  {
    RatioOrder(f, p, a, b);
    RatioOrder(a, b, f + 1, p);
    var x, lo, hi := Ratio(a, b), Ratio(f, p), Ratio(f + 1, p);
    var e := (b * p) as real;
    CrossProduct(a, b, p);
    CrossProduct(f, p, b);
    CrossProduct(f + 1, p, b);
    assert (p * b) as real == e;
    hide Ratio;
    assert (x - lo) * e == (a * p - f * b) as real;
    assert (hi - x) * e == ((f + 1) * b - a * p) as real;
    ScaleOrder(x - lo, hi - x, e);
    ScaleOrder(hi - x, x - lo, e);
  }

  lemma Outside(f: int, p: nat, z: real)
    requires p > 0 && !(f as real < z * (p as real) < (f + 1) as real)
    ensures z <= Ratio(f, p) || z >= Ratio(f + 1, p)
  {
    RatioTimes(f, p);
    RatioTimes(f + 1, p);
    ScaleOrder(z, Ratio(f, p), p as real);
    ScaleOrder(Ratio(f + 1, p), z, p as real);
  }

  /** The quotient of the model is the correctly rounded one. */
  lemma QuotientIsNearest(a: int, b: nat)
    requires -0x8000_0000 <= a <= 0x7FFF_FFFF && 0 < b <= 0x7FFF_FFFF
    ensures Nearest(Ratio(a, b), Quotient(a, b))
  {
    hide PositiveQuotient, Ratio, IsDouble, Nearest;
    if a > 0 {
      PositiveQuotientIsNearest(a, b);
    } else if a < 0 {
      var c: nat := -a;
      PositiveQuotientIsNearest(c, b);
      NearestNegated(Ratio(c, b), PositiveQuotient(c, b));
      RatioNegated(c, b);
    } else {
      ZeroIsNearest(b);
    }
  }

  lemma RatioNegated(c: int, b: nat)
    requires b > 0
    ensures Ratio(-c, b) == -Ratio(c, b)
  {
    assert (-c) as real == -(c as real);
  }

  lemma ZeroIsNearest(b: nat)
    requires b > 0
    ensures Nearest(Ratio(0, b), 0.0)
  {
    IntegerIsDouble(0);
    assert Ratio(0, b) == 0.0;
    hide IsDouble, Ratio;
  }
}
