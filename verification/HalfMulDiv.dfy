/** `operator*` and `operator/` of half.h (2744-2815): correctly rounded for every pair of operands. */
module HalfMulDiv {
  import opened Pow2s
  import opened HalfSpec
  import opened HalfRounding
  import opened HalfNaN
  import opened HalfNormalize

  function SignOfProduct(x: Half, y: Half): (s: Half)
    ensures s == 0 || s == 0x8000
  {
    if Sign(x) == Sign(y) then 0 else 0x8000
  }

  /** What IEEE 754-2008 (sections 5.4.1, 6.1 and 6.3) asks of a product. */
  ghost predicate IsProduct(x: Half, y: Half, r: Half) {
    var sign := SignOfProduct(x, y);
    if IsNaN(x) || IsNaN(y) then IsNaN(r)
    else if IsFinite(x) && IsFinite(y) then
      if AbsBits(x) == 0 || AbsBits(y) == 0 then r == sign
      else Rounds(Mag(AbsBits(x)) * Mag(AbsBits(y)), Pow2(24), sign, r)
    else if AbsBits(x) == 0 || AbsBits(y) == 0 then IsNaN(r)
    else r == sign + INF
  }

  /** ... and of a quotient. */
  ghost predicate IsQuotient(x: Half, y: Half, r: Half) {
    var sign := SignOfProduct(x, y);
    if IsNaN(x) || IsNaN(y) then IsNaN(r)
    else if AbsBits(x) == 0 && AbsBits(y) == 0 then IsNaN(r)
    else if !IsFinite(x) && !IsFinite(y) then IsNaN(r)
    else if AbsBits(x) == 0 || !IsFinite(y) then r == sign
    else if AbsBits(y) == 0 || !IsFinite(x) then r == sign + INF
    else Rounds(Mag(AbsBits(x)) * Pow2(24), Mag(AbsBits(y)), sign, r)
  }

  lemma PowProduct(x: int, a: nat, y: int, b: nat)
    ensures (x * Pow2(a)) * (y * Pow2(b)) == (x * y) * Pow2(a + b)
  {
    PowShift(x * y, a, b);
    Rearrange(x, Pow2(a), y, Pow2(b));
  }

  lemma Rearrange(x: int, p: int, y: int, q: int)
    ensures (x * p) * (y * q) == (x * y) * p * q
  {
  }

  /** The common tail of `*` and `/`: PIMSimulator/lib/half.h:2767-2771 and 2806-2813. */
  function FinishFixed(F: nat, m: nat, exp: int, sign: nat, s: bool): nat
    requires F >= 11
  {
    if exp > 29 then sign + INF
    else if exp < -11 then sign
    else Fixed2Half(F, m, exp, sign, s)
  }

  /** Overflow, underflow and `fixed2half` together round correctly. */
  lemma FinishFixedRounds(F: nat, m: nat, a: nat, b: nat, exp: int, sign: nat, s: bool, n: int, d: int)
    requires 11 <= F <= 20 && d > 0 && exp == b - a + F - 10
    requires sign == 0 || sign == 0x8000
    requires Pow2(F) <= m < 2 * Pow2(F)
    requires Sticky(n * Pow2(a), Pow2(b) * d, m, s)
    ensures Rounds(n, d, sign, FinishFixed(F, m, exp, sign, s))
  {
    hide Sticky, Rounds, Fixed2Half, Pow2;
    if exp > 29 {
      OverflowRounds(F, m, a, b, sign, s, n, d);
    } else if exp < -11 {
      UnderflowRounds(F, m, a, b, sign, s, n, d);
    } else {
      StickyRebase(n, a, b, F + 1, exp + 11, d, m, s);
      Fixed2HalfRounds(F, m, exp, sign, s, n, d);
    }
  }

  lemma OverflowRounds(F: nat, m: nat, a: nat, b: nat, sign: nat, s: bool, n: int, d: int)
    requires d > 0 && F <= 20 && b + F >= a + 40
    requires sign == 0 || sign == 0x8000
    requires Pow2(F) <= m && Sticky(n * Pow2(a), Pow2(b) * d, m, s)
    ensures Rounds(n, d, sign, sign + INF)
  {
    hide Sticky, NearestEven, Rounds, Mag, Pow2;
    StickyRebase(n, a, b, 0, b - a, d, m, s);
    TimesOne(n);
    TooLarge(F, m, b - a, s, n, d);
    WithSign(n, d, sign, INF);
  }

  lemma UnderflowRounds(F: nat, m: nat, a: nat, b: nat, sign: nat, s: bool, n: int, d: int)
    requires d > 0 && b + F + 2 <= a
    requires sign == 0 || sign == 0x8000
    requires m < 2 * Pow2(F) && Sticky(n * Pow2(a), Pow2(b) * d, m, s)
    ensures Rounds(n, d, sign, sign)
  {
    hide Sticky, NearestEven, Rounds, Mag, Pow2;
    StickyRebase(n, a, b, a - b, 0, d, m, s);
    TimesOne(d);
    TooSmall(F, m, a - b, s, n, d);
    WithSign(n, d, sign, 0);
  }

  lemma TimesOne(n: int)
    ensures n * Pow2(0) == n == Pow2(0) * n
  {
  }

  lemma StickyBounds(N: int, P: int, m: int, s: bool, lo: int, hi: int)
    requires P > 0 && lo <= m < hi && Sticky(N, P, m, s)
    ensures lo * P <= N < hi * P
  {
    MulMono(lo, m, P);
    MulMono(m + 1, hi, P);
    Distribute(m, 1, P);
  }

  lemma TooLarge(F: nat, m: nat, b: nat, s: bool, n: int, d: int)
    requires d > 0 && b + F >= 40
    requires Pow2(F) <= m && Sticky(n, Pow2(b) * d, m, s)
    ensures NearestEven(n, d, INF)
  {
    hide *;
    MulStrict(0, d, Pow2(b));
    StickyBounds(n, Pow2(b) * d, m, s, Pow2(F), m + 1);
    PowShift(d, b, F);
    Pow2Mono(40, b + F);
    MulMono(Pow2(40), Pow2(b + F), d);
    MagInf();
    NearestBeyond(n, d);
  }

  lemma TooSmall(F: nat, m: nat, a: nat, s: bool, n: int, d: int)
    requires d > 0 && F + 2 <= a
    requires m < 2 * Pow2(F) && Sticky(n * Pow2(a), d, m, s)
    ensures NearestEven(n, d, 0)
  {
    StickyBounds(n * Pow2(a), d, m, s, 0, Pow2(F + 1));
    Pow2Mono(F + 1, a - 1);
    MulMono(Pow2(F + 1), Pow2(a - 1), d);
    TinyScaled(n, a, d);
    TinyRounds(n, d);
  }

  lemma TinyScaled(n: int, a: nat, d: int)
    requires a > 0 && 0 <= n * Pow2(a) < Pow2(a - 1) * d
    ensures 0 <= 2 * n < d
  {
    DoubleLast(n, a - 1);
    MulCancel(2 * n, d, Pow2(a - 1));
    MulCancel(0, 2 * n, Pow2(a - 1));
  }

  lemma MantissaProduct(mx: nat, my: nat)
    requires 0x400 <= mx < 0x800 && 0x400 <= my < 0x800
    ensures Pow2(20) <= mx * my < 4 * Pow2(20)
  {
    Pow2Values();
    MulMono(0x400, mx, my);
    MulStrict(mx, 0x800, my);
  }

  /** Normalised patterns: PIMSimulator/lib/half.h:2763-2771. */
  function MulNormal(cx: nat, kx: nat, cy: nat, ky: nat, sign: nat): nat {
    var m := (0x400 + cx % 0x400) * (0x400 + cy % 0x400);
    var i := Shr(m, 21);
    FinishFixed(20, Shr(m, i), -16 - kx - ky + cx / 0x400 + cy / 0x400 + i, sign, i == 1 && m % 2 == 1)
  }

  lemma MulNormalRounds(X: nat, cx: nat, kx: nat, Y: nat, cy: nat, ky: nat, sign: nat)
    requires 0x400 <= cx < INF && 0x400 <= cy < INF
    requires X * Pow2(kx) == Mag(cx) && Y * Pow2(ky) == Mag(cy)
    requires sign == 0 || sign == 0x8000
    ensures Rounds(X * Y, Pow2(24), sign, MulNormal(cx, kx, cy, ky, sign))
  {
    hide Sticky, Rounds, FinishFixed, Shr, Mag, Pow2;
    var mx, ex := 0x400 + cx % 0x400, cx / 0x400;
    var my, ey := 0x400 + cy % 0x400, cy / 0x400;
    NormalParts(cx);
    NormalParts(cy);
    MantissaProduct(mx, my);
    var m := mx * my;
    var i := TopBit(m);
    var n, a, b := X * Y, kx + ky, ex - 1 + (ey - 1);
    ExactProduct(X, kx, mx, ex - 1, Y, ky, my, ey - 1);
    ProductSticky(n, a, b, m, i);
    FinishFixedRounds(20, Shr(m, i), a + 24, b + i, b + i - a - 14, sign, i == 1 && m % 2 == 1, n, Pow2(24));
  }

  lemma ExactProduct(X: int, kx: nat, mx: int, ex: nat, Y: int, ky: nat, my: int, ey: nat)
    requires X * Pow2(kx) == mx * Pow2(ex) && Y * Pow2(ky) == my * Pow2(ey)
    ensures X * Y * Pow2(kx + ky) == mx * my * Pow2(ex + ey)
  {
    PowProduct(X, kx, Y, ky);
    PowProduct(mx, ex, my, ey);
  }

  /** `int i = m >> 21`: whether the product needs one more integer bit. */
  lemma TopBit(m: nat) returns (i: nat)
    requires Pow2(20) <= m < 4 * Pow2(20)
    ensures i == Shr(m, 21) <= 1
    ensures Pow2(20) <= Shr(m, i) < 2 * Pow2(20)
  {
    i := Shr(m, 21);
    ShrBelow(m, 21, 2);
    if i == 1 {
      Split(m, 21);
      assert Shr(m, 1) == m / 2;
    } else {
      ShrAboveOrBelow(m);
    }
  }

  lemma ShrAboveOrBelow(m: nat)
    requires Shr(m, 21) == 0
    ensures m < 2 * Pow2(20)
  {
    Split(m, 21);
  }

  lemma ProductSticky(n: int, a: nat, b: nat, m: nat, i: nat)
    requires n * Pow2(a) == m * Pow2(b) && i <= 1
    ensures Sticky(n * Pow2(a + 24), Pow2(b + i) * Pow2(24), Shr(m, i), i == 1 && m % 2 == 1)
  {
    PowShift(n, a, 24);
    StickyScale(n * Pow2(a), Pow2(b), n * Pow2(a + 24), Pow2(b) * Pow2(24), Pow2(24), 1, m, false);
    if i == 1 {
      MulStrict(0, Pow2(b), Pow2(24));
      StickyHalve(n * Pow2(a + 24), Pow2(b) * Pow2(24), m, false);
      DoubleFirst(b, Pow2(24));
    }
  }

  /** `operator*`. */
  method Mul(x: Half, y: Half) returns (r: Half)
    ensures IsProduct(x, y, r)
  {
    var absx, absy := AbsBits(x), AbsBits(y);
    var sign := SignOfProduct(x, y);
    if absx >= INF || absy >= INF {
      return if absx > INF || absy > INF then Quiet(x, y)
             else if (absx == INF && absy == 0) || (absy == INF && absx == 0) then INVALID
             else sign + INF;
    }
    if absx == 0 || absy == 0 {
      return sign;
    }
    var cx, kx := Normalize(absx);
    var cy, ky := Normalize(absy);
    MulNormalRounds(Mag(absx), cx, kx, Mag(absy), cy, ky, sign);
    r := MulNormal(cx, kx, cy, ky, sign);
  }

  function Quot(n: nat, d: nat): nat
    requires d > 0
  {
    n / d
  }

  /** Normalised patterns: PIMSimulator/lib/half.h:2803-2813. */
  function DivNormal(cx: nat, kx: nat, cy: nat, ky: nat, sign: nat): nat {
    var mx, my := 0x400 + cx % 0x400, 0x400 + cy % 0x400;
    var i := if mx < my then 1 else 0;
    var num, den := mx * Pow2(12 + i), my * 2;
    FinishFixed(11, Quot(num, den), 14 - kx + ky + cx / 0x400 - cy / 0x400 - i, sign, num % den != 0)
  }

  lemma DivNormalRounds(X: nat, cx: nat, kx: nat, Y: nat, cy: nat, ky: nat, sign: nat)
    requires 0x400 <= cx < INF && 0x400 <= cy < INF && Y > 0
    requires X * Pow2(kx) == Mag(cx) && Y * Pow2(ky) == Mag(cy)
    requires sign == 0 || sign == 0x8000
    ensures Rounds(X * Pow2(24), Y, sign, DivNormal(cx, kx, cy, ky, sign))
  {
    hide Sticky, Rounds, FinishFixed, Shr, Mag, Pow2;
    var mx, ex := 0x400 + cx % 0x400, cx / 0x400;
    var my, ey := 0x400 + cy % 0x400, cy / 0x400;
    NormalParts(cx);
    NormalParts(cy);
    var i := if mx < my then 1 else 0;
    var q, s := Quot(mx * Pow2(12 + i), my * 2), mx * Pow2(12 + i) % (my * 2) != 0;
    QuotientRange(mx, my, i);
    QuotientSticky(X, kx, mx, ex, Y, ky, my, ey, i, q, s);
    var a, b := kx + ey + 10 + i, ky + ex + 23;
    FinishFixedRounds(11, q, a, b, b - a + 1, sign, s, X * Pow2(24), Y);
  }

  lemma DivSticky(N: nat, D: nat)
    requires D > 0
    ensures Sticky(N, D, N / D, N % D != 0)
  {
    assert N == N / D * D + N % D;
    Distribute(N / D, 1, D);
  }

  lemma QuotientRange(mx: nat, my: nat, i: nat)
    requires 0x400 <= mx < 0x800 && 0x400 <= my < 0x800
    requires i == if mx < my then 1 else 0
    ensures Pow2(11) <= mx * Pow2(12 + i) / (my * 2) < 2 * Pow2(11)
  {
    Pow2Values();
    var N, D := mx * Pow2(12 + i), my * 2;
    DivSticky(N, D);
    MulCancel(N / D, 4096, D);
    MulCancel(2047, N / D, D);
    Distribute(N / D, 1, D);
  }

  lemma QuotientSticky(X: nat, kx: nat, mx: nat, ex: nat, Y: nat, ky: nat, my: nat, ey: nat, i: nat, q: nat, s: bool)
    requires ex >= 1 && ey >= 1 && my > 0
    requires X * Pow2(kx) == mx * Pow2(ex - 1) && Y * Pow2(ky) == my * Pow2(ey - 1)
    requires q == mx * Pow2(12 + i) / (my * 2) && s == (mx * Pow2(12 + i) % (my * 2) != 0)
    ensures Sticky(X * Pow2(24) * Pow2(kx + ey + 10 + i), Pow2(ky + ex + 23) * Y, q, s)
  {
    var c := ex + ey + 21;
    DivSticky(mx * Pow2(12 + i), my * 2);
    Numerator(X, kx, mx, ex, ey, i);
    Denominator(Y, ky, my, ey, ex);
    StickyScale(X * Pow2(24) * Pow2(kx + ey + 10 + i), Pow2(ky + ex + 23) * Y,
                mx * Pow2(12 + i), my * 2, 1, Pow2(c), q, s);
  }

  lemma Numerator(X: nat, kx: nat, mx: nat, ex: nat, ey: nat, i: nat)
    requires ex >= 1 && X * Pow2(kx) == mx * Pow2(ex - 1)
    ensures X * Pow2(24) * Pow2(kx + ey + 10 + i) == mx * Pow2(12 + i) * Pow2(ex + ey + 21)
  {
    PowShift(X, 24, kx + ey + 10 + i);
    PowShift(X, kx, ey + 34 + i);
    PowShift(mx, ex - 1, ey + 34 + i);
    PowShift(mx, 12 + i, ex + ey + 21);
  }

  lemma Denominator(Y: nat, ky: nat, my: nat, ey: nat, ex: nat)
    requires ey >= 1 && Y * Pow2(ky) == my * Pow2(ey - 1)
    ensures Pow2(ky + ex + 23) * Y == my * 2 * Pow2(ex + ey + 21)
  {
    PowShift(Y, ky, ex + 23);
    PowShift(my, ey - 1, ex + 23);
    DoubleLast(my, ex + ey + 21);
  }

  /** `operator/`. */
  method Div(x: Half, y: Half) returns (r: Half)
    ensures IsQuotient(x, y, r)
  {
    var absx, absy := AbsBits(x), AbsBits(y);
    var sign := SignOfProduct(x, y);
    if absx >= INF || absy >= INF {
      return if absx > INF || absy > INF then Quiet(x, y)
             else if absx == absy then INVALID
             else sign + if absx == INF then INF else 0;
    }
    if absx == 0 {
      return if absy != 0 then sign else INVALID;
    }
    if absy == 0 {
      return sign + INF;
    }
    var cx, kx := Normalize(absx);
    var cy, ky := Normalize(absy);
    DivNormalRounds(Mag(absx), cx, kx, Mag(absy), cy, ky, sign);
    r := DivNormal(cx, kx, cy, ky, sign);
  }
}
