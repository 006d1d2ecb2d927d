/** The rounding helpers of half.h in its default mode (round to nearest, ties to even), and the lemmas that
    tie guard and sticky bits to `NearestEven`. */
module HalfRounding {
  import opened Pow2s
  import opened HalfSpec

  /** `rounded`, PIMSimulator/lib/half.h:836-856: g is the first discarded bit, s says whether any further
      discarded bit is set. */
  function Rounded(value: nat, g: nat, s: bool): nat {
    value + if g == 1 && (s || value % 2 == 1) then 1 else 0
  }

  /** `fixed2half` on an already normalised, unsigned mantissa in Q1.F format: PIMSimulator/lib/half.h:905-919. */
  function Fixed2Half(F: nat, m: nat, exp: int, sign: nat, s: bool): nat
    requires F >= 11 && exp <= 29
  {
    if exp < 0 then
      Rounded(sign + Shr(m, F - 10 - exp), Shr(m, F - 11 - exp) % 2, s || Low(m, F - 11 - exp) != 0)
    else
      Rounded(sign + exp * 0x400 + Shr(m, F - 10), Shr(m, F - 11) % 2, s || Low(m, F - 11) != 0)
  }

  // Sticky quotients ----------------------------------------------------------------------------------

  /** N/P has integer part m, and a fractional part exactly when s is set. */
  ghost predicate Sticky(N: int, P: int, m: int, s: bool) {
    if s then m * P < N < (m + 1) * P else N == m * P
  }

  /** Shifting one bit out of the integer part into the sticky bit. */
  lemma StickyHalve(N: int, P: int, m: nat, s: bool)
    requires P > 0 && Sticky(N, P, m, s)
    ensures Sticky(N, 2 * P, m / 2, s || m % 2 != 0)
  {
    var h := m / 2;
    assert h * (2 * P) == 2 * h * P && (h + 1) * (2 * P) == 2 * h * P + 2 * P;
    if m == 2 * h {
    } else {
      assert m == 2 * h + 1;
      assert m * P == 2 * h * P + P;
    }
    assert (m + 1) * P == m * P + P;
  }

  lemma {:induction false} StickyShift(N: int, j: nat, d: int, m: nat, s: bool, k: nat)
    requires d > 0 && Sticky(N, Pow2(j) * d, m, s)
    ensures Sticky(N, Pow2(j + k) * d, Shr(m, k), s || Low(m, k) != 0)
    decreases k
  {
    if k > 0 {
      MulStrict(0, d, Pow2(j));
      StickyHalve(N, Pow2(j) * d, m, s);
      DoubleFirst(j, d);
      StickyShift(N, j + 1, d, m / 2, s || m % 2 != 0, k - 1);
    }
  }

  /** Sticky quotients do not change when both sides gain or lose the same power of two. */
  lemma {:induction false} StickyRebase(n: int, a: nat, b: nat, a': nat, b': nat, d: int, m: nat, s: bool)
    requires a + b' == a' + b
    requires Sticky(n * Pow2(a), Pow2(b) * d, m, s)
    ensures Sticky(n * Pow2(a'), Pow2(b') * d, m, s)
    decreases if a < a' then a' - a else a - a'
  {
    if a < a' {
      StickyDouble(n, a, b, d, m, s);
      StickyRebase(n, a + 1, b + 1, a', b', d, m, s);
    } else if a > a' {
      StickyDouble(n, a - 1, b - 1, d, m, s);
      StickyRebase(n, a - 1, b - 1, a', b', d, m, s);
    }
  }

  lemma StickyDouble(n: int, a: nat, b: nat, d: int, m: nat, s: bool)
    ensures Sticky(n * Pow2(a + 1), Pow2(b + 1) * d, m, s) <==> Sticky(n * Pow2(a), Pow2(b) * d, m, s)
  {
    DoubleFirst(b, d);
    DoubleLast(n, a);
    StickyScale(n * Pow2(a + 1), Pow2(b + 1) * d, n * Pow2(a), Pow2(b) * d, 1, 2, m, s);
  }

  lemma DoubleFirst(j: nat, d: int)
    ensures Pow2(j + 1) * d == 2 * (Pow2(j) * d)
  {
  }

  lemma DoubleLast(n: int, k: nat)
    ensures n * Pow2(k + 1) == 2 * (n * Pow2(k)) == 2 * n * Pow2(k)
  {
    DoubleProduct(n, Pow2(k));
  }

  /** Two ratios with proportional parts have the same sticky quotient. */
  lemma StickyScale(A: int, B: int, a: int, b: int, c: int, C: int, m: int, s: bool)
    requires A * c == a * C && B * c == b * C && c > 0 && C > 0
    ensures Sticky(A, B, m, s) <==> Sticky(a, b, m, s)
  {
    Proportional(A, B, a, b, c, C, m);
    Proportional(A, B, a, b, c, C, m + 1);
  }

  lemma Proportional(A: int, B: int, a: int, b: int, c: int, C: int, m: int)
    requires A * c == a * C && B * c == b * C && c > 0 && C > 0
    ensures A == m * B <==> a == m * b
    ensures A < m * B <==> a < m * b
    ensures m * B < A <==> m * b < a
  {
    Associate(m, B, c);
    Associate(m, b, C);
    MulEq(B * c, b * C, m);
    MulCancel(A, m * B, c);
    MulCancel(a, m * b, C);
    MulCancel(m * B, A, c);
    MulCancel(m * b, a, C);
  }

  // Correct rounding ----------------------------------------------------------------------------------

  /** n exceeds lo by the fraction of w that guard bit g and sticky bit s describe. */
  ghost predicate GuardSticky(n: int, lo: int, w: int, g: nat, s: bool) {
    var edge := if g == 0 then 2 * lo else 2 * lo + w;
    if s then edge < 2 * n < edge + w else 2 * n == edge
  }

  lemma RoundPattern(v: nat, n: int, d: int, lo: int, w: int, g: nat, s: bool)
    requires v < INF && d > 0 && g <= 1
    requires lo == Mag(v) * d && w == Ulp(v) * d
    requires GuardSticky(n, lo, w, g, s)
    ensures NearestEven(n, d, Rounded(v, g, s))
  {
    MagSucc(v);
    Distribute(Mag(v), Ulp(v), d);
    NearestInBracket(v, n, d, lo, lo + w, Rounded(v, g, s));
  }

  lemma Distribute(a: int, b: int, c: int)
    ensures (a + b) * c == a * c + b * c
  {
  }

  lemma StickyToGuard(n: int, P: int, q: nat, g: nat, s: bool)
    requires g <= 1 && Sticky(2 * n, P, 2 * q + g, s)
    ensures GuardSticky(n, q * P, P, g, s)
  {
    if g == 0 {
      assert 2 * q * P == 2 * (q * P) && (2 * q + 1) * P == 2 * (q * P) + P;
    } else {
      assert (2 * q + 1) * P == 2 * (q * P) + P && (2 * q + 2) * P == 2 * (q * P) + 2 * P;
    }
  }

  /** The heart of every operation: an exact value whose mantissa, guard and sticky bits are q, g, s at
      exponent e is rounded correctly by `Rounded`, whatever carries that causes, under either sign. */
  lemma RoundMantissa(e: nat, q: nat, g: nat, s: bool, n: int, d: int, sign: nat)
    requires 1 <= e <= 30 && d > 0 && g <= 1
    requires q < 0x800 && (q >= 0x400 || e == 1)
    requires Sticky(2 * n, Pow2(e - 1) * d, 2 * q + g, s)
    requires sign == 0 || sign == 0x8000
    ensures var r := Rounded(sign + (e - 1) * 0x400 + q, g, s);
            Rounds(n, d, sign, r)
  {
    var v := (e - 1) * 0x400 + q;
    var P := Pow2(e - 1) * d;
    StickyToGuard(n, P, q, g, s);
    Assemble(e, q);
    Associate(q, Pow2(e - 1), d);
    RoundPattern(v, n, d, q * P, P, g, s);
    RoundedSigned(sign, v, g, s);
  }

  lemma RoundedSigned(sign: nat, v: nat, g: nat, s: bool)
    requires sign == 0 || sign == 0x8000
    requires v < INF
    ensures Rounded(sign + v, g, s) == sign + Rounded(v, g, s) < 0x10000
    ensures Sign(Rounded(sign + v, g, s)) == sign
    ensures AbsBits(Rounded(sign + v, g, s)) == Rounded(v, g, s) <= INF
  {
  }

  /** `fixed2half` rounds correctly whenever n/d is m * 2^(exp + 10 - F), up to a sticky bit. */
  lemma Fixed2HalfRounds(F: nat, m: nat, exp: int, sign: nat, s: bool, n: int, d: int)
    requires F >= 11 && -11 <= exp <= 29 && d > 0
    requires sign == 0 || sign == 0x8000
    requires Pow2(F) <= m < 2 * Pow2(F)
    requires Sticky(n * Pow2(F + 1), Pow2(exp + 11) * d, m, s)
    ensures var r := Fixed2Half(F, m, exp, sign, s);
            Rounds(n, d, sign, r)
  {
    hide Sticky, Rounds, Rounded, Low, Pow2;
    var k := if exp < 0 then F - 11 - exp else F - 11;
    var e := if exp < 0 then 1 else exp + 1;
    var t, s' := Shr(m, k), s || Low(m, k) != 0;
    FixedUnits(F, m, exp, s, n, d, k, e);
    MantissaRange(F, m, exp, k);
    ShrOnce(m, k);
    assert 2 * (t / 2) + t % 2 == t;
    RoundMantissa(e, t / 2, t % 2, s', n, d, sign);
  }

  lemma FixedUnits(F: nat, m: nat, exp: int, s: bool, n: int, d: int, k: nat, e: nat)
    requires F >= 11 && -11 <= exp <= 29 && d > 0
    requires Sticky(n * Pow2(F + 1), Pow2(exp + 11) * d, m, s)
    requires k == if exp < 0 then F - 11 - exp else F - 11
    requires e == if exp < 0 then 1 else exp + 1
    ensures Sticky(2 * n, Pow2(e - 1) * d, Shr(m, k), s || Low(m, k) != 0)
  {
    var t, s' := Shr(m, k), s || Low(m, k) != 0;
    StickyShift(n * Pow2(F + 1), exp + 11, d, m, s, k);
    DoubleLast(n, F);
    assert exp + 11 + k == e - 1 + F;
    StickyRebase(2 * n, F, e - 1 + F, 0, e - 1, d, t, s');
  }

  lemma Associate(a: int, b: int, c: int)
    ensures a * b * c == a * (b * c)
  {
  }

  lemma MantissaRange(F: nat, m: nat, exp: int, k: nat)
    requires F >= 11 && -11 <= exp <= 29
    requires Pow2(F) <= m < 2 * Pow2(F)
    requires k == if exp < 0 then F - 11 - exp else F - 11
    ensures Shr(m, k) < 0x1000
    ensures exp >= 0 ==> Shr(m, k) >= 0x800
  {
    Pow2Values();
    Pow2Add(11, F - 11);
    Pow2Mono(F - 11, k);
    ShrBelow(m, k, 0x1000);
    if exp >= 0 {
      ShrAbove(m, k, 0x800);
    }
  }

  lemma ShrBelow(m: nat, k: nat, b: nat)
    requires m < b * Pow2(k)
    ensures Shr(m, k) < b
  {
    Split(m, k);
    MulCancel(Shr(m, k), b, Pow2(k));
  }

  lemma ShrAbove(m: nat, k: nat, b: nat)
    requires b * Pow2(k) <= m
    ensures b <= Shr(m, k)
  {
    Split(m, k);
    assert (Shr(m, k) + 1) * Pow2(k) == Shr(m, k) * Pow2(k) + Pow2(k);
    MulCancel(b, Shr(m, k) + 1, Pow2(k));
  }

  /** Less than half the least subnormal rounds to zero. */
  lemma TinyRounds(n: int, d: int)
    requires 0 <= 2 * n < d
    ensures NearestEven(n, d, 0)
  {
    assert Mag(0) == 0 && Mag(1) == 1;
    NearestInBracket(0, n, d, 0, d, 0);
  }

  lemma WithSign(n: int, d: int, sign: nat, r: nat)
    requires sign == 0 || sign == 0x8000
    requires r <= INF && NearestEven(n, d, r)
    ensures Rounds(n, d, sign, sign + r)
  {
    hide NearestEven;
  }

  lemma ExactRounds(h: nat)
    requires h <= INF
    ensures NearestEven(Mag(h), 1, h)
  {
    forall q: nat | q <= INF && q != h
      ensures Dist(Mag(h), 1, h) < Dist(Mag(h), 1, q)
    {
      if q < h {
        MagMono(q, h);
      } else {
        MagMono(h, q);
      }
    }
  }
}
