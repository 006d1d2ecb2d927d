/** Conversions of half.h between binary16, binary64 and integers (1028-1054, 1106-1125 and 1397-1414). */
module HalfConvert {
  import opened Pow2s
  import opened HalfSpec
  import opened HalfRounding
  import opened HalfNaN
  import opened HalfNormalize

  type Word = w: int | 0 <= w < 0x1_0000_0000

  /** A binary64 pattern as its two 32-bit words. */
  datatype Double = Double(hi: Word, lo: Word) {
    function SignBit(): int { if hi < 0x8000_0000 then 0 else 0x8000 }
    function Magnitude(): nat { if hi < 0x8000_0000 then hi else hi - 0x8000_0000 }
    function Exponent(): nat { Magnitude() / 0x10_0000 }
    function Fraction(): nat { Magnitude() % 0x10_0000 * 0x1_0000_0000 + lo }
    predicate IsFinite() { Exponent() < 0x7FF }

    /** Section 3.4 of IEEE 754-2008: significand times 2^(e - 1075), with e at least 1. */
    function Significand(): nat {
      Fraction() + if Exponent() == 0 then 0 else 0x10_0000_0000_0000
    }

    function Scale(): nat { if Exponent() == 0 then 1 else Exponent() }

    /** The magnitude in units of 2^-24, as the fraction Num/Den. */
    function Num(): nat {
      if Scale() >= 1051 then Significand() * Pow2(Scale() - 1051) else Significand()
    }

    function Den(): (d: nat)
      ensures d > 0
    {
      if Scale() >= 1051 then 1 else Pow2(1051 - Scale())
    }
  }

  /** What section 5.4.2 of IEEE 754-2008 asks of a narrowing conversion. */
  ghost predicate IsNarrowed(d: Double, r: Half) {
    if d.IsFinite() then Rounds(d.Num(), d.Den(), d.SignBit(), r)
    else if d.Fraction() == 0 then r == d.SignBit() + INF
    else IsNaN(r)
  }

  /** `float2half_impl(double)`. */
  function Narrow(d: Double): nat {
    var sign, h := d.SignBit(), d.Magnitude();
    if h >= 0x7FF0_0000 then
      sign + INF + if d.Fraction() != 0 then SetBit9(h / 0x400 % 0x400) else 0
    else if h >= 0x40F0_0000 then sign + INF
    else if h >= 0x3F10_0000 then
      Rounded(sign + (h / 0x10_0000 - 1008) * 0x400 + h / 0x400 % 0x400, h / 0x200 % 2, h % 0x200 != 0 || d.lo != 0)
    else if h >= 0x3E60_0000 then
      var i, m := 1018 - h / 0x10_0000, h % 0x10_0000 + 0x10_0000;
      Rounded(sign + Shr(m, i + 1), Shr(m, i) % 2, Low(m, i) != 0 || d.lo != 0)
    else sign
  }

  lemma NarrowRounds(d: Double)
    ensures Narrow(d) < 0x10000 && IsNarrowed(d, Narrow(d))
  {
    var h := d.Magnitude();
    if h >= 0x7FF0_0000 {
    } else if h >= 0x40F0_0000 {
      NarrowOverflow(d);
    } else if h >= 0x3F10_0000 {
      NarrowNormal(d, d.Exponent(), h % 0x10_0000);
    } else if h >= 0x3E60_0000 {
      NarrowSubnormal(d, d.Exponent(), h % 0x10_0000);
    } else {
      NarrowUnderflow(d);
    }
  }

  lemma BigPowers()
    ensures Pow2(40) == 0x100_0000_0000 && Pow2(12) == 0x1000
    ensures Pow2(54) == 0x40_0000_0000_0000 && Pow2(42) == 0x400_0000_0000
  {
    Pow2Values();
    Pow2Add(10, 30);
    Pow2Add(12, 30);
    Pow2Add(24, 30);
  }

  lemma NarrowOverflow(d: Double)
    requires 1039 <= d.Exponent() < 0x7FF
    ensures Rounds(d.Num(), d.Den(), d.SignBit(), d.SignBit() + INF)
  {
    hide NearestEven, Rounds, Mag;
    var E, sig := d.Scale(), d.Significand();
    assert sig >= 0x10_0000_0000_0000;
    MagInf();
    BigPowers();
    assert d.Num() >= Pow2(40) * d.Den() by {
      if E >= 1051 {
        MulMono(1, Pow2(E - 1051), sig);
      } else {
        Pow2Mono(1051 - E, 12);
      }
    }
    NearestBeyond(d.Num(), d.Den());
    WithSign(d.Num(), d.Den(), d.SignBit(), INF);
  }

  lemma NarrowUnderflow(d: Double)
    requires d.Exponent() < 998
    ensures Rounds(d.Num(), d.Den(), d.SignBit(), d.SignBit())
  {
    hide NearestEven, Rounds, Mag;
    BigPowers();
    Pow2Mono(54, 1051 - d.Scale());
    TinyRounds(d.Num(), d.Den());
    WithSign(d.Num(), d.Den(), d.SignBit(), 0);
  }

  /** The fraction field f keeps its top ten bits; bit 9 is the guard, the rest is sticky. */
  lemma NarrowNormal(d: Double, e: nat, f: nat)
    requires 1009 <= e <= 1038 && e == d.Exponent() && f == d.Magnitude() % 0x10_0000
    ensures Narrow(d) < 0x10000 && Rounds(d.Num(), d.Den(), d.SignBit(), Narrow(d))
  {
    hide Sticky, Rounds, Rounded, Pow2;
    var h := d.Magnitude();
    Fields(h, e, f);
    NormalSticky(d.Significand(), f, d.lo);
    NormalUnit(e);
    RoundMantissa(e - 1008, 0x400 + f / 0x400, f / 0x200 % 2, f % 0x200 != 0
      || d.lo != 0, d.Num(), d.Den(), d.SignBit());
  }

  lemma Fields(h: nat, e: nat, f: nat)
    requires h == e * 0x10_0000 + f && f < 0x10_0000
    ensures h / 0x10_0000 == e
    ensures h / 0x400 % 0x400 == f / 0x400 < 0x400
    ensures h / 0x200 % 2 == f / 0x200 % 2
    ensures h % 0x200 == f % 0x200
    ensures 2 * (0x400 + f / 0x400) + f / 0x200 % 2 == 0x800 + f / 0x200
  {
    TopField(h, e, f);
    MiddleField(h, e, f);
    LowField(h, e, f);
    HalfOf(f);
    Shifted(e, f / 0x400);
    Parity(e, f / 0x200);
  }

  lemma TopField(h: nat, e: nat, f: nat)
    requires h == e * 0x10_0000 + f && f < 0x10_0000
    ensures h / 0x10_0000 == e
  {
  }

  lemma MiddleField(h: nat, e: nat, f: nat)
    requires h == e * 0x10_0000 + f && f < 0x10_0000
    ensures h / 0x400 == e * 0x400 + f / 0x400 && f / 0x400 < 0x400
  {
  }

  lemma LowField(h: nat, e: nat, f: nat)
    requires h == e * 0x10_0000 + f && f < 0x10_0000
    ensures h / 0x200 == e * 0x800 + f / 0x200 && h % 0x200 == f % 0x200
  {
  }

  lemma HalfOf(f: nat)
    ensures 2 * (f / 0x400) + f / 0x200 % 2 == f / 0x200
  {
  }

  lemma Shifted(e: nat, x: nat)
    requires x < 0x400
    ensures (e * 0x400 + x) % 0x400 == x
  {
  }

  lemma Parity(e: nat, y: nat)
    ensures (e * 0x800 + y) % 2 == y % 2
  {
  }

  lemma NormalUnit(e: nat)
    requires 1009 <= e <= 1038
    ensures Pow2(e - 1009) * Pow2(1051 - e) == 0x400_0000_0000
  {
    Pow2Add(e - 1009, 1051 - e);
    BigPowers();
  }

  lemma NormalSticky(sig: nat, f: nat, lo: nat)
    requires f < 0x10_0000 && lo < 0x1_0000_0000
    requires sig == 0x10_0000_0000_0000 + f * 0x1_0000_0000 + lo
    ensures Sticky(2 * sig, 0x400_0000_0000, 0x800 + f / 0x200, f % 0x200 != 0 || lo != 0)
  {
  }

  /** Below the normal range the whole mantissa, hidden bit included, is shifted out by the exponent. */
  lemma NarrowSubnormal(d: Double, e: nat, f: nat)
    requires 998 <= e <= 1008 && e == d.Exponent() && f == d.Magnitude() % 0x10_0000
    ensures Narrow(d) < 0x10000 && Rounds(d.Num(), d.Den(), d.SignBit(), Narrow(d))
  {
    var i, m := 1018 - e, f + 0x10_0000;
    var t, s := Shr(m, i), Low(m, i) != 0 || d.lo != 0;
    SubnormalSticky(d.Significand(), m, d.lo, i);
    Pow2Values();
    Pow2Mono(10, i);
    ShrBelow(m, i, 0x800);
    ShrOnce(m, i);
    hide Sticky, Rounds, Rounded;
    assert Pow2(0) * d.Den() == Pow2(33 + i);
    RoundMantissa(1, t / 2, t % 2, s, d.Num(), d.Den(), d.SignBit());
  }

  lemma SubnormalSticky(sig: nat, m: nat, lo: nat, i: nat)
    requires lo < 0x1_0000_0000 && sig == m * 0x1_0000_0000 + lo
    ensures Sticky(2 * sig, Pow2(33 + i), Shr(m, i), Low(m, i) != 0 || lo != 0)
  {
    Pow2Values();
    assert Sticky(2 * sig, Pow2(33) * 1, m, lo != 0);
    hide Sticky;
    StickyShift(2 * sig, 33, 1, m, lo != 0, i);
  }

  /** What a widening conversion must deliver: the very same number. */
  ghost predicate IsWidened(h: Half, d: Double) {
    && d.SignBit() == Sign(h)
    && (d.IsFinite() <==> IsFinite(h))
    && (IsFinite(h) ==> d.Num() == Mag(AbsBits(h)) * d.Den())
    && (!IsFinite(h) ==> (d.Fraction() == 0 <==> !IsNaN(h)))
  }

  /** Narrowing undoes widening: a half is nearest to its own value. */
  lemma WidenThenNarrow(h: Half, d: Double)
    requires IsWidened(h, d) && !IsNaN(h)
    ensures Narrow(d) == h
  {
    hide NearestEven, Narrow, Mag;
    NarrowRounds(d);
    if IsFinite(h) {
      SameValue(h, Narrow(d), d.Num(), d.Den());
    }
  }

  lemma SameValue(h: Half, r: int, n: int, d: int)
    requires IsFinite(h) && d > 0 && n == Mag(AbsBits(h)) * d
    requires Rounds(n, d, Sign(h), r)
    ensures r == h
  {
    hide NearestEven, Mag;
    var a := AbsBits(h);
    ExactRounds(a);
    NearestEvenScale(Mag(a), 1, d, a);
    NearestEvenUnique(n, d, a, AbsBits(r));
  }

  /** `half2float_impl(double)`. */
  method Widen(h: Half) returns (d: Double)
    ensures IsWidened(h, d)
    ensures !IsNaN(h) ==> Narrow(d) == h
  {
    hide IsWidened, Narrow, Mag, Pow2;
    var hi, abs := if h < 0x8000 then 0 else 0x8000_0000, AbsBits(h);
    if abs != 0 {
      hi := hi + if abs >= INF then 0x7E00_0000 else 0x3F00_0000;
      var b, k := Normalize(abs);
      hi := hi - k * 0x10_0000 + b * 0x400;
      d := Double(hi, 0);
      if abs < INF {
        WidenedFinite(h, b, k, d);
      } else {
        WidenedSpecial(h, d);
      }
    } else {
      d := Double(hi, 0);
      WidenedZero(h, d);
    }
    if !IsNaN(h) {
      WidenThenNarrow(h, d);
    }
  }

  lemma WidenedSpecial(h: Half, d: Double)
    requires AbsBits(h) >= INF
    requires d.hi == (if h < 0x8000 then 0 else 0x8000_0000) + 0x7E00_0000 + AbsBits(h) * 0x400 && d.lo == 0
    ensures IsWidened(h, d)
  {
    Fields(d.Magnitude(), 0x7FF, AbsBits(h) * 0x400 - 0x1F0_0000);
  }

  lemma ZeroDouble(d: Double)
    requires d.lo == 0 && (d.hi == 0 || d.hi == 0x8000_0000)
    ensures d.IsFinite() && d.Num() == 0
  {
    hide Pow2;
    assert d.Magnitude() == 0;
  }

  lemma WidenedZero(h: Half, d: Double)
    requires AbsBits(h) == 0
    requires d == Double(if h < 0x8000 then 0 else 0x8000_0000, 0)
    ensures IsWidened(h, d)
  {
    assert Mag(AbsBits(h)) == 0;
    ZeroDouble(d);
    hide Pow2, Mag, Double.Num, Double.Den, Double.IsFinite, Double.Fraction;
    assert d.Num() == 0 * d.Den();
    assert d.SignBit() == Sign(h);
    assert d.IsFinite() && IsFinite(h);
  }

  lemma WidenedFinite(h: Half, b: nat, k: nat, d: Double)
    requires 0 < AbsBits(h) < INF && 0x400 <= b < INF && k <= 10
    requires Mag(b) == Mag(AbsBits(h)) * Pow2(k)
    requires d.hi == (if h < 0x8000 then 0 else 0x8000_0000) + 0x3F00_0000 - k * 0x10_0000 + b * 0x400 && d.lo == 0
    ensures IsWidened(h, d)
  {
    hide Pow2, Mag;
    var X, mant, eb := Mag(AbsBits(h)), 0x400 + b % 0x400, b / 0x400;
    NormalParts(b);
    assert d.Magnitude() == (1008 - k + eb) * 0x10_0000 + b % 0x400 * 0x400;
    Fields(d.Magnitude(), 1008 - k + eb, b % 0x400 * 0x400);
    WidenPowers(X, k, mant, eb);
    BigPowers();
    assert d.Significand() == mant * 0x400_0000_0000;
  }

  lemma WidenPowers(X: nat, k: nat, mant: nat, eb: nat)
    requires 1 <= eb <= 30 && k <= 10 && X * Pow2(k) == mant * Pow2(eb - 1)
    ensures mant * Pow2(42) == X * Pow2(43 + k - eb)
  {
    hide Pow2;
    PowShift(X, k, 42);
    PowShift(X, 43 + k - eb, eb - 1);
    PowShift(mant, eb - 1, 42);
    PowShift(mant, 42, eb - 1);
    MulCancel(mant * Pow2(42), X * Pow2(43 + k - eb), Pow2(eb - 1));
  }

  // Integers ------------------------------------------------------------------------------------------

  /** `int2half`, with its two normalisation loops. */
  method Int2Half(value: int) returns (r: nat)
    ensures r < 0x10000
    ensures value == 0 ==> r == 0
    ensures value != 0 ==> Rounds(Abs(value) * Pow2(24), 1, if value < 0 then 0x8000 else 0, r)
  {
    hide Rounds, Rounded, Mag, Sticky;
    var sign := if value < 0 then 0x8000 else 0;
    if value == 0 {
      return sign;
    }
    var v: nat := Abs(value);
    if v > 0xFFFF {
      IntOverflow(v, sign);
      return sign + INF;
    }
    var m, exp := v, 24;
    while m < 0x400
      invariant 14 <= exp <= 24 && m == v * Pow2(24 - exp)
      invariant exp < 24 ==> m < 0x800
    {
      GrowBound(v, m, exp);
      m, exp := 2 * m, exp - 1;
    }
    while m > 0x7FF
      invariant 0x400 <= m && exp >= 14
      invariant exp < 24 ==> m < 0x800 && m == v * Pow2(24 - exp)
      invariant exp >= 24 ==> m == Shr(v, exp - 24)
      decreases m
    {
      ShrOnce(v, exp - 24);
      m, exp := m / 2, exp + 1;
    }
    IntRounds(v, m, exp, sign);
    var bits := sign + exp * 0x400 + m;
    r := if exp > 24 then Rounded(bits, Shr(v, exp - 25) % 2, Low(v, exp - 25) != 0) else bits;
  }

  lemma GrowBound(v: nat, m: nat, exp: nat)
    requires v > 0 && 14 <= exp <= 24 && m == v * Pow2(24 - exp) && m < 0x400
    ensures exp > 14 && 2 * m == v * Pow2(24 - (exp - 1))
  {
    MulMono(1, v, Pow2(24 - exp));
    DoubleLast(v, 24 - exp);
    if exp == 14 {
      Pow2Values();
    }
  }

  lemma IntOverflow(v: nat, sign: nat)
    requires v > 0xFFFF && (sign == 0 || sign == 0x8000)
    ensures Rounds(v * Pow2(24), 1, sign, sign + INF)
  {
    hide NearestEven, Rounds, Mag;
    MagInf();
    Pow2Values();
    BigPowers();
    NearestBeyond(v * Pow2(24), 1);
    WithSign(v * Pow2(24), 1, sign, INF);
  }

  lemma IntRounds(v: nat, m: nat, exp: nat, sign: nat)
    requires 0 < v <= 0xFFFF && 0x400 <= m < 0x800 && (sign == 0 || sign == 0x8000)
    requires exp < 24 ==> m == v * Pow2(24 - exp)
    requires exp >= 24 ==> m == Shr(v, exp - 24)
    ensures var bits := sign + exp * 0x400 + m;
            var r := if exp > 24 then Rounded(bits, Shr(v, exp - 25) % 2, Low(v, exp - 25) != 0) else bits;
            r < 0x10000 && Rounds(v * Pow2(24), 1, sign, r)
  {
    Unshifted(v);
    hide Rounds, Sticky, Rounded, Shr, Low, Pow2;
    if exp <= 24 {
      IntExact(v, m, exp, sign);
    } else {
      ExactSticky25(v);
      IntShifted(v, m, exp, sign, v * Pow2(24));
    }
  }

  lemma Unshifted(v: nat)
    ensures Shr(v, 0) == v == v * Pow2(0)
  {
  }

  lemma IntExact(v: nat, m: nat, exp: nat, sign: nat)
    requires 0x400 <= m < 0x800 && (sign == 0 || sign == 0x8000)
    requires exp <= 24 && m == v * Pow2(24 - exp)
    ensures sign + exp * 0x400 + m < 0x10000
    ensures Rounds(v * Pow2(24), 1, sign, sign + exp * 0x400 + m)
  {
    hide Rounds, Sticky, Pow2;
    PowShift(v, 24 - exp, exp);
    ExactSticky(v * Pow2(24), m, Pow2(exp));
    RoundMantissa(exp + 1, m, 0, false, v * Pow2(24), 1, sign);
  }

  lemma IntShifted(v: nat, m: nat, exp: nat, sign: nat, n: nat)
    requires Sticky(2 * n, Pow2(25) * 1, v, false)
    requires 0 < v <= 0xFFFF && 0x400 <= m < 0x800 && (sign == 0 || sign == 0x8000)
    requires exp > 24 && m == Shr(v, exp - 24)
    ensures var r := Rounded(sign + exp * 0x400 + m, Shr(v, exp - 25) % 2, Low(v, exp - 25) != 0);
            r < 0x10000 && Rounds(n, 1, sign, r)
  {
    IntExponentBound(v, m, exp);
    IntSticky(v, m, exp, n);
    hide *;
    RoundMantissa(exp + 1, m, Shr(v, exp - 25) % 2, Low(v, exp - 25) != 0, n, 1, sign);
  }

  /** What is shifted out of v is its guard bit and below it the sticky rest. */
  lemma IntSticky(v: nat, m: nat, exp: nat, n: nat)
    requires Sticky(2 * n, Pow2(25) * 1, v, false) && exp > 24 && m == Shr(v, exp - 24)
    ensures Sticky(2 * n, Pow2(exp) * 1, 2 * m + Shr(v, exp - 25) % 2, Low(v, exp - 25) != 0)
  {
    hide *;
    var k, t := exp - 25, Shr(v, exp - 25);
    ShrOnce(v, k);
    StickyShift(2 * n, 25, 1, v, false, k);
    assert t == 2 * m + t % 2;
  }

  lemma ExactSticky(n: int, m: int, P: int)
    requires n == m * P
    ensures Sticky(2 * n, P * 1, 2 * m + 0, false)
  {
  }

  lemma ExactSticky25(v: int)
    ensures Sticky(2 * (v * Pow2(24)), Pow2(25) * 1, v, false)
  {
    DoubleLast(v, 24);
    hide Pow2;
  }

  lemma IntExponentBound(v: nat, m: nat, exp: nat)
    requires v <= 0xFFFF && exp >= 24 && m == Shr(v, exp - 24) && m >= 0x400
    ensures exp <= 29
  {
    if exp > 29 {
      Split(v, exp - 24);
      Pow2Values();
      Pow2Mono(6, exp - 24);
      hide Pow2;
      MulMono(0x400, m, Pow2(exp - 24));
    }
  }
}
