/** The digit-by-digit square root of half.h (1611-1625) and the half function built on it (3379-3394). */
module HalfSqrt {
  import opened Pow2s
  import opened HalfSpec
  import opened HalfRounding
  import opened HalfNaN
  import opened HalfNormalize

  /** The square root of N, in the unit of `Mag`, is strictly nearer to r than to any other pattern. With
      a > b, x is nearer to a than to b when 2x > a + b, which for x the root of N reads 4N > (a + b)^2. */
  ghost predicate NearestRoot(N: int, r: int) {
    && 0 <= r <= INF
    && (forall q: nat :: q < r ==> 4 * N > Square(Mag(r) + Mag(q)))
    && (forall q: nat :: r < q <= INF ==> 4 * N < Square(Mag(r) + Mag(q)))
  }

  function Square(x: int): int {
    x * x
  }

  lemma SquareMono(a: int, b: int)
    requires 0 <= a <= b
    ensures Square(a) <= Square(b)
    ensures a < b ==> Square(a) < Square(b)
  {
    MulMono(a, b, a);
    if a < b {
      MulStrict(a, b, b);
    }
  }

  /** Where the root is rational, `NearestRoot` is `NearestEven`. */
  lemma NearestRootIsNearest(N: int, n: nat, d: int, r: int)
    requires d > 0 && Square(n) == N * Square(d)
    requires NearestRoot(N, r)
    ensures NearestEven(n, d, r)
  {
    forall q: nat | q <= INF && q != r
      ensures Dist(n, d, r) < Dist(n, d, q)
    {
      SquareScale(N, n, d, Mag(r) + Mag(q));
      Distribute(Mag(r), Mag(q), d);
      if q < r {
        MagMono(q, r);
        MulStrict(Mag(q), Mag(r), d);
      } else {
        MagMono(r, q);
        MulStrict(Mag(r), Mag(q), d);
      }
    }
  }

  lemma SquareFacts(x: int)
    ensures Square(2 * x) == 4 * Square(x)
    ensures Square(x + 1) == Square(x) + 2 * x + 1
    ensures x > 0 ==> Square(x) > 0
  {
    if x > 0 {
      MulStrict(0, x, x);
    }
  }

  lemma SquareScale(N: int, n: nat, d: int, s: nat)
    requires d > 0 && Square(n) == N * Square(d)
    ensures 4 * N > Square(s) <==> 2 * n > s * d
    ensures 4 * N < Square(s) <==> 2 * n < s * d
  {
    hide Square;
    SquareOfProduct(s, d);
    SquareFacts(n);
    SquareFacts(d);
    Associate(4, N, Square(d));
    MulCancel(Square(s), 4 * N, Square(d));
    MulCancel(4 * N, Square(s), Square(d));
    MulMono(0, s, d);
    if 2 * n <= s * d {
      SquareMono(2 * n, s * d);
    }
    if s * d <= 2 * n {
      SquareMono(s * d, 2 * n);
    }
  }

  // The fixed-point loop ------------------------------------------------------------------------------

  /** One digit: with p the digits so far and h the weight of the next, the comparison asks whether p + h
      is still below the root. */
  lemma RootStep(p: int, h: int)
    ensures Square(p + h) == Square(p) + p * (2 * h) + h * h
    ensures p * (2 * h) == 2 * (p * h)
    ensures (p + h) * h == p * h + h * h
  {
  }

  function DigitBit(j: nat): nat {
    if j == 0 then 0 else Square(Pow2(j - 1))
  }

  lemma QuarterBit(j: nat)
    ensures DigitBit(j) / 4 == if j == 0 then 0 else DigitBit(j - 1)
    ensures j > 0 ==> DigitBit(j) > 0
  {
    if j > 1 {
      SquareFacts(Pow2(j - 2));
    }
  }

  /** `detail::sqrt<F>`: the integer square root of the exponent-adjusted radicand, with its remainder. */
  method FixedSqrt(F: nat, radicand: nat, exponent: int) returns (m: nat, r: nat, exp: int)
    requires F % 2 == 0
    requires radicand < 2 * Pow2(F)
    ensures 2 * exp + exponent % 2 == exponent
    ensures var R := radicand * Pow2(exponent % 2);
            && Square(m) <= R < Square(m + 1)
            && r == R - Square(m)
  {
    hide Square;
    var i := exponent % 2;
    r, exp := radicand * Pow2(i), (exponent - i) / 2;
    ghost var R := r;
    m := 0;
    var bit := Pow2(F);
    ghost var p: nat, j: nat := 0, F / 2 + 1;
    FirstDigit(F, radicand, i);
    while bit > 0
      invariant m == p * Pow2(j)
      invariant bit == DigitBit(j)
      invariant r == R - Square(p) && Square(p) <= R < Square(p + Pow2(j))
      decreases j
    {
      ghost var h := Pow2(j - 1);
      NextDigit(p, j);
      QuarterBit(j);
      if r < m + bit {
        m := m / 2;
      } else {
        r := r - (m + bit);
        m := m / 2 + bit;
        p := p + h;
      }
      bit, j := bit / 4, j - 1;
    }
    LastDigit(p, j);
  }

  lemma FirstDigit(F: nat, radicand: nat, i: nat)
    requires F % 2 == 0 && radicand < 2 * Pow2(F) && i <= 1
    ensures Pow2(F) == DigitBit(F / 2 + 1)
    ensures Square(0) == 0 <= radicand * Pow2(i) < Square(0 + Pow2(F / 2 + 1))
  {
    Pow2Add(F / 2, F / 2);
    SquareFacts(Pow2(F / 2));
    assert radicand * Pow2(i) == if i == 0 then radicand else 2 * radicand;
  }

  lemma NextDigit(p: int, j: nat)
    requires j > 0
    ensures var h := Pow2(j - 1);
            && Square(p + h) == Square(p) + p * Pow2(j) + DigitBit(j)
            && p * Pow2(j) == 2 * (p * h)
            && (p + h) * h == p * h + DigitBit(j)
            && p + Pow2(j) == p + h + h
  {
    RootStep(p, Pow2(j - 1));
  }

  lemma LastDigit(p: int, j: nat)
    requires DigitBit(j) == 0
    ensures j == 0 && p * Pow2(j) == p && Pow2(j) == 1
  {
    QuarterBit(j);
  }

  // The half function ---------------------------------------------------------------------------------

  /** What section 5.4.1 of IEEE 754-2008 asks of a square root. */
  ghost predicate IsRoot(x: Half, r: Half) {
    if IsNaN(x) then IsNaN(r)
    else if AbsBits(x) == 0 || x == INF then r == x
    else if Sign(x) != 0 then IsNaN(r)
    else NearestRoot(Mag(x) * Pow2(24), r)
  }

  lemma RootInBracket(v: nat, N: int, r: nat)
    requires v < INF
    requires Square(Mag(v)) <= N < Square(Mag(v + 1))
    requires r == v ==> 4 * N < Square(Mag(v) + Mag(v + 1))
    requires r == v + 1 ==> 4 * N > Square(Mag(v) + Mag(v + 1))
    requires r == v || r == v + 1
    ensures NearestRoot(N, r)
  {
    hide Square, Mag;
    SquareFacts(Mag(v));
    SquareFacts(Mag(v + 1));
    forall q: nat | q < r
      ensures 4 * N > Square(Mag(r) + Mag(q))
    {
      MagMonoEq(q, r - 1);
      MagMonoEq(r - 1, r);
      SquareMono(Mag(r) + Mag(q), if r == v then 2 * Mag(v) else Mag(v) + Mag(v + 1));
      if r == v {
        MagMono(q, r);
        SquareMono(Mag(r) + Mag(q), 2 * Mag(v));
      }
    }
    forall q: nat | r < q <= INF
      ensures 4 * N < Square(Mag(r) + Mag(q))
    {
      MagMonoEq(r + 1, q);
      MagMonoEq(r, r + 1);
      SquareMono(if r == v then Mag(v) + Mag(v + 1) else 2 * Mag(v + 1), Mag(r) + Mag(q));
    }
  }

  lemma MagMonoEq(a: nat, b: nat)
    requires a <= b <= INF
    ensures Mag(a) <= Mag(b)
  {
    if a < b {
      MagMono(a, b);
    }
  }

  /** The remainder against the root decides the midpoint, and a tie cannot occur. */
  lemma RootRounds(X: nat, m: nat, rest: nat, N: int, R: nat)
    requires 1 <= X <= 30 && 0x400 <= m < 0x800
    requires R == Square(m) + rest && R < Square(m + 1)
    requires N == R * Square(Pow2(X - 1))
    ensures var r := Rounded(X * 0x400 + (m - 0x400), if rest > m then 1 else 0, rest != 0);
            NearestRoot(N, r)
  {
    hide NearestRoot, Square, Mag, Ulp, Pow2;
    var v, u := X * 0x400 + (m - 0x400), Pow2(X - 1);
    Assemble(X, m);
    MagSucc(v);
    ScaledSquares(m, u);
    SquareFacts(u);
    MidpointOfSquares(R, m, rest, Square(u));
    RootInBracket(v, N, if rest > m then v + 1 else v);
  }

  lemma MidpointOfSquares(R: int, m: nat, rest: nat, uu: int)
    requires uu > 0 && R == Square(m) + rest && R < Square(m + 1)
    ensures Square(m) * uu <= R * uu < Square(m + 1) * uu
    ensures rest <= m ==> 4 * (R * uu) < Square(2 * m + 1) * uu
    ensures rest > m ==> 4 * (R * uu) > Square(2 * m + 1) * uu
  {
    hide Square;
    SquareFacts(m);
    SquareFacts(2 * m);
    Associate(4, R, uu);
    MulMono(Square(m), R, uu);
    MulStrict(R, Square(m + 1), uu);
    MulCancel(4 * R, Square(2 * m + 1), uu);
    MulCancel(Square(2 * m + 1), 4 * R, uu);
  }

  lemma ScaledSquares(m: int, u: int)
    ensures Square(m * u) == Square(m) * Square(u)
    ensures Square(m * u + u) == Square(m + 1) * Square(u)
    ensures Square(m * u + (m * u + u)) == Square(2 * m + 1) * Square(u)
  {
    SquareOfProduct(m, u);
    SquareOfProduct(m + 1, u);
    SquareOfProduct(2 * m + 1, u);
    Distribute(m, 1, u);
    Distribute(2 * m, 1, u);
  }

  lemma SquareOfProduct(m: int, u: int)
    ensures Square(m * u) == Square(m) * Square(u)
  {
  }

  lemma RadicandValue(X: nat, k: nat, mant: nat, e: nat, i: nat, h: nat)
    requires e >= 1 && X * Pow2(k) == mant * Pow2(e - 1)
    requires 2 * (h + 1) + i == 15 - k + e
    ensures X * Pow2(24) == mant * 0x400 * Pow2(i) * Square(Pow2(h))
  {
    hide Pow2, Square;
    PowShift(X, k, 24);
    PowShift(X, 24, k);
    PowShift(mant, e - 1, 24);
    RadicandPowers(mant, i, h, k);
    assert 10 + i + (h + h) + k == e - 1 + 24;
    MulCancel(X * Pow2(24), mant * Pow2(10 + i + (h + h)), Pow2(k));
  }

  lemma RadicandPowers(mant: nat, i: nat, h: nat, k: nat)
    ensures mant * 0x400 * Pow2(i) * Square(Pow2(h)) == mant * Pow2(10 + i + (h + h))
    ensures mant * Pow2(10 + i + (h + h)) * Pow2(k) == mant * Pow2(10 + i + (h + h) + k)
  {
    assert Pow2(10) == 0x400 by { Pow2Values(); }
    hide Pow2;
    PowShift(mant, 10, i);
    PowShift(mant, 10 + i, h + h);
    PowShift(mant, 10 + i + (h + h), k);
    Pow2Add(h, h);
  }

  lemma RootRange(R: nat, m: nat)
    requires 0x10_0000 <= R < 0x40_0000
    requires Square(m) <= R < Square(m + 1)
    ensures 0x400 <= m < 0x800
  {
    if m < 0x400 {
      SquareMono(m + 1, 0x400);
    } else if m >= 0x800 {
      SquareMono(0x800, m);
    }
  }

  lemma SqrtRounds(X: nat, k: nat, mant: nat, e: nat, i: nat, m: nat, rest: nat, exp: int)
    requires 1 <= e <= 30 && 0x400 <= mant < 0x800 && k <= 10 && i <= 1
    requires X * Pow2(k) == mant * Pow2(e - 1)
    requires 2 * exp + i == 15 - k + e
    requires Square(m) <= mant * 0x400 * Pow2(i) < Square(m + 1)
    requires rest == mant * 0x400 * Pow2(i) - Square(m)
    ensures 1 <= exp <= 30 && 0x400 <= m < 0x800
    ensures NearestRoot(X * Pow2(24), Rounded(exp * 0x400 + (m - 0x400), if rest > m then 1 else 0, rest != 0))
    ensures Rounded(exp * 0x400 + (m - 0x400), if rest > m then 1 else 0, rest != 0) <= INF
  {
    assert Pow2(i) == 1 + i;
    hide NearestRoot, Square, Pow2;
    var R := mant * 0x400 * Pow2(i);
    assert i == 0 ==> R == mant * 0x400;
    assert i == 1 ==> R == mant * 0x800;
    RootRange(R, m);
    RadicandValue(X, k, mant, e, i, exp - 1);
    RootRounds(exp, m, rest, X * Pow2(24), R);
  }

  /** `sqrt`. */
  method Sqrt(x: Half) returns (r: Half)
    ensures IsRoot(x, r)
  {
    var abs := AbsBits(x);
    if abs == 0 || x >= INF {
      return if abs > INF then Quiet(x, x) else if x > 0x8000 then INVALID else x;
    }
    r := SqrtPositive(abs);
  }

  method SqrtPositive(abs: nat) returns (r: nat)
    requires 0 < abs < INF
    ensures r <= INF && NearestRoot(Mag(abs) * Pow2(24), r)
  {
    assert Pow2(20) == 0x10_0000 by { Pow2Values(); }
    hide *;
    var b, k := Normalize(abs);
    NormalParts(b);
    var mant, e := 0x400 + b % 0x400, b / 0x400;
    var i := (15 - k + e) % 2;
    var m, rest, exp := FixedSqrt(20, mant * 0x400, 15 - k + e);
    SqrtRounds(Mag(abs), k, mant, e, i, m, rest, exp);
    MaskMantissa(m);
    r := Rounded(exp * 0x400 + m % 0x400, if rest > m then 1 else 0, rest != 0);
  }

  lemma MaskMantissa(m: nat)
    requires 0x400 <= m < 0x800
    ensures m % 0x400 == m - 0x400
  {
  }
}
