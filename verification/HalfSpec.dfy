/** What a binary16 bit pattern denotes and what it means to round to it: sections 3.4 and 4.3.1 of
    IEEE 754-2008. Magnitudes are counted in units of the least subnormal, 2^-24. */
module HalfSpec {
  import opened Pow2s

  const INF := 0x7C00

  /** The magnitude of a pattern without sign bit, in units of 2^-24: the first two binades count in units,
      and each further step of the exponent field (0x400) doubles. `INF` stands for 2^16, the first magnitude
      without a finite pattern, so that rounding into infinity is rounding to that neighbour. */
  function Mag(h: nat): nat {
    if h < 0x800 then h else 2 * Mag(h - 0x400)
  }

  /** One unit in the last place. */
  function Ulp(h: nat): (u: nat)
    ensures u > 0
  {
    if h < 0x800 then 1 else 2 * Ulp(h - 0x400)
  }

  /** Mantissa with its hidden bit, and the biased exponent, where a subnormal counts as exponent 1. */
  function Mant(h: nat): nat {
    if h < 0x400 then h else 0x400 + h % 0x400
  }

  function Exp(h: nat): (e: nat)
    ensures e >= 1
  {
    if h < 0x400 then 1 else h / 0x400
  }

  /** The encoding of section 3.4: mantissa times two to the exponent. */
  lemma {:induction false} MagIsMantissaTimesExponent(h: nat)
    ensures Mag(h) == Mant(h) * Pow2(Exp(h) - 1)
    ensures Ulp(h) == Pow2(Exp(h) - 1)
  {
    if h >= 0x800 {
      MagIsMantissaTimesExponent(h - 0x400);
      DoubleProduct(Mant(h), Pow2(Exp(h) - 2));
    }
  }

  function Abs(x: int): nat {
    if x < 0 then -x else x
  }

  /** d times the distance between n/d and the magnitude of q. */
  function Dist(n: int, d: int, q: nat): nat {
    Abs(n - Mag(q) * d)
  }

  /** r is the pattern nearest to n/d among all patterns up to infinity; on a tie it is the even one. */
  ghost predicate NearestEven(n: int, d: int, r: int) {
    && 0 <= r <= INF
    && forall q: nat :: q <= INF && q != r ==>
         Dist(n, d, r) < Dist(n, d, q) || (Dist(n, d, r) == Dist(n, d, q) && r % 2 == 0)
  }

  /** The bit-pattern successor is the next magnitude, one unit in the last place up. */
  lemma {:induction false} MagSucc(h: nat)
    ensures Mag(h + 1) == Mag(h) + Ulp(h)
  {
    if h >= 0x800 {
      MagSucc(h - 0x400);
    }
  }

  lemma {:induction false} MagMono(a: nat, b: nat)
    requires a < b <= INF
    ensures Mag(a) < Mag(b)
  {
    MagSucc(b - 1);
    if a < b - 1 {
      MagMono(a, b - 1);
    }
  }

  /** Of three patterns the middle one is strictly nearer than the farther of the outer two. */
  lemma MiddleIsNearer(n: int, d: int, r: nat, q: nat, s: nat)
    requires d > 0 && r < q < s <= INF
    ensures Dist(n, d, q) < Dist(n, d, r) || Dist(n, d, q) < Dist(n, d, s)
  {
    MagMono(r, q);
    MagMono(q, s);
    MulStrict(Mag(r), Mag(q), d);
    MulStrict(Mag(q), Mag(s), d);
  }

  /** Correct rounding names one pattern only. */
  lemma NearestEvenUnique(n: int, d: int, r: int, s: int)
    requires d > 0 && NearestEven(n, d, r) && NearestEven(n, d, s)
    ensures r == s
  {
    if r < s - 1 {
      MiddleIsNearer(n, d, r, r + 1, s);
    } else if s < r - 1 {
      MiddleIsNearer(n, d, s, s + 1, r);
    }
  }

  /** Rounding depends on the quotient alone. */
  lemma NearestEvenScale(n: int, d: int, c: int, r: int)
    requires c > 0
    ensures NearestEven(n * c, d * c, r) <==> NearestEven(n, d, r)
  {
    forall q: nat
      ensures Dist(n * c, d * c, q) == Dist(n, d, q) * c
    {
      assert n * c - Mag(q) * (d * c) == (n - Mag(q) * d) * c;
    }
    if 0 <= r <= INF {
      forall q: nat {
        MulCancel(Dist(n, d, r), Dist(n, d, q), c);
      }
    }
  }

  /** A value bracketed by v and its successor rounds to one of the two, decided at the midpoint. */
  lemma NearestInBracket(v: nat, n: int, d: int, lo: int, hi: int, r: nat)
    requires v < INF && d > 0
    requires lo == Mag(v) * d && hi == Mag(v + 1) * d
    requires lo <= n <= hi
    requires r == v || r == v + 1
    requires r == v ==> 2 * n <= lo + hi
    requires r == v + 1 ==> 2 * n >= lo + hi
    requires 2 * n == lo + hi ==> r % 2 == 0
    ensures NearestEven(n, d, r)
  {
    MagMono(v, v + 1);
    MulStrict(Mag(v), Mag(v + 1), d);
    forall q: nat | q <= INF && q != r
      ensures Dist(n, d, r) < Dist(n, d, q) || (Dist(n, d, r) == Dist(n, d, q) && r % 2 == 0)
    {
      if q < v {
        MagMono(q, v);
        MulStrict(Mag(q), Mag(v), d);
      } else if q > v + 1 {
        MagMono(v + 1, q);
        MulStrict(Mag(v + 1), Mag(q), d);
      }
    }
  }

  /** Anything from 2^16 up rounds to infinity. */
  lemma NearestBeyond(n: int, d: int)
    requires d > 0 && n >= Mag(INF) * d
    ensures NearestEven(n, d, INF)
  {
    forall q: nat | q <= INF && q != INF
      ensures Dist(n, d, INF) < Dist(n, d, q)
    {
      MagMono(q, INF);
      MulStrict(Mag(q), Mag(INF), d);
    }
  }

  /** The reading of a pattern assembled as `(e - 1) << 10` plus a mantissa. */
  lemma {:induction false} Assemble(e: nat, q: nat)
    requires 1 <= e
    requires q < 0x800 && (q >= 0x400 || e == 1)
    ensures Mag((e - 1) * 0x400 + q) == q * Pow2(e - 1)
    ensures Ulp((e - 1) * 0x400 + q) == Pow2(e - 1)
  {
    if e > 1 {
      Assemble(e - 1, q);
      DoubleProduct(q, Pow2(e - 2));
    }
  }

  lemma MagInf()
    ensures Mag(INF) == Pow2(40)
  {
    Assemble(31, 0x400);
    Pow2Values();
    Pow2Add(10, 30);
  }

  // Signed patterns -----------------------------------------------------------------------------------

  type Half = h: int | 0 <= h < 0x10000

  function Sign(h: Half): (s: int)
    ensures s == 0 || s == 0x8000
  {
    if h < 0x8000 then 0 else 0x8000
  }

  function AbsBits(h: Half): (a: nat)
    ensures a < 0x8000
  {
    h % 0x8000
  }

  predicate IsNaN(h: Half) { AbsBits(h) > INF }
  predicate IsFinite(h: Half) { AbsBits(h) < INF }

  /** The signed value of a finite pattern, in units of 2^-24. */
  function Val(h: Half): int {
    if Sign(h) == 0 then Mag(AbsBits(h)) as int else -(Mag(AbsBits(h)) as int)
  }

  /** r carries the given sign bit and the magnitude nearest to n/d. */
  ghost predicate Rounds(n: int, d: int, sign: int, r: int) {
    0 <= r < 0x10000 && Sign(r) == sign && NearestEven(n, d, AbsBits(r))
  }
}
