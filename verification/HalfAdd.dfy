/** `operator+` and `operator-` of half.h (2676-2735): correctly rounded for every pair of operands. */
module HalfAdd {
  import opened Pow2s
  import opened HalfSpec
  import opened HalfRounding
  import opened HalfNaN

  /** What IEEE 754-2008 (sections 5.4.1, 6.1 and 6.3) asks of a sum. */
  ghost predicate IsSum(x: Half, y: Half, r: Half) {
    if IsNaN(x) || IsNaN(y) then IsNaN(r)
    else if !IsFinite(x) && !IsFinite(y) then if x == y then r == x else IsNaN(r)
    else if !IsFinite(x) then r == x
    else if !IsFinite(y) then r == y
    else
      var z := Val(x) + Val(y);
      if z == 0 then r == if x == y == 0x8000 then 0x8000 else 0
      else Rounds(Abs(z), 1, if z < 0 then 0x8000 else 0, r)
  }

  // Jammed significands -------------------------------------------------------------------------------

  /** M stands for N/P with its lowest bit "jammed": set whenever bits below it were lost. */
  ghost predicate Jammed(N: int, P: int, M: nat) {
    Sticky(N, 2 * P, M / 2, M % 2 == 1)
  }

  /** Enough of M is right to round at its third bit. */
  ghost predicate Roundable(N: int, P: int, M: nat) {
    Sticky(N, 4 * P, M / 4, M % 4 != 0)
  }

  lemma JammedIsRoundable(N: int, P: int, M: nat)
    requires P > 0 && Jammed(N, P, M)
    ensures Roundable(N, P, M)
  {
    StickyHalve(N, 2 * P, M / 2, M % 2 == 1);
    assert M / 2 / 2 == M / 4;
  }

  lemma ExactIsRoundable(N: int, P: int, M: nat)
    requires P > 0 && N == M * P
    ensures Roundable(N, P, M)
  {
    StickyHalve(N, P, M, false);
    JammedIsRoundable(N, P, M);
  }

  lemma JammedIsExactWhenEven(N: int, P: int, M: nat)
    requires Jammed(N, P, M) && M % 2 == 0
    ensures N == M * P
  {
    Associate(M / 2, 2, P);
    assert M / 2 * 2 == M;
  }

  lemma StickyPlus(N: int, P: int, m: int, s: bool, k: int)
    requires Sticky(N, P, m, s)
    ensures Sticky(k * P + N, P, k + m, s)
  {
    Distribute(k, m, P);
    Distribute(k, m + 1, P);
  }

  lemma StickyMinus(N: int, P: int, m: int, s: bool, k: int)
    requires Sticky(N, P, m, s)
    ensures Sticky(k * P - N, P, if s then k - m - 1 else k - m, s)
  {
    Distribute(k - m, m, P);
    Distribute(k - m - 1, m + 1, P);
  }

  lemma JammedPlus(N: int, P: int, M: nat, k: nat)
    requires Jammed(N, P, M)
    ensures Jammed(k * (2 * P) + N, P, 2 * k + M)
  {
    hide Sticky;
    StickyPlus(N, 2 * P, M / 2, M % 2 == 1, k);
    assert (2 * k + M) / 2 == k + M / 2;
  }

  lemma JammedMinus(N: int, P: int, M: nat, k: nat)
    requires Jammed(N, P, M) && M <= 2 * k
    ensures Jammed(k * (2 * P) - N, P, 2 * k - M)
  {
    hide Sticky;
    StickyMinus(N, 2 * P, M / 2, M % 2 == 1, k);
  }

  /** Halving a jammed significand and jamming again. */
  lemma JammedHalve(N: int, P: int, M: nat)
    requires P > 0 && Jammed(N, P, M)
    ensures Jammed(N, 2 * P, Jam(M / 2, M % 2 == 1))
  {
    StickyHalve(N, 2 * P, M / 2, M % 2 == 1);
  }

  /** `f | s`, for a flag s. */
  function Jam(f: nat, s: bool): (j: nat)
    ensures j / 2 == f / 2
    ensures j % 2 == 1 <==> s || f % 2 == 1
    ensures f <= j <= f + 1
  {
    if s && f % 2 == 0 then f + 1 else f
  }

  // Alignment -----------------------------------------------------------------------------------------

  /** The smaller significand, scaled by 8 and shifted right by the difference of exponents. */
  function Align(absy: nat, d: nat): nat {
    var my := Mant(absy) * 8;
    if d < 13 then Jam(Shr(my, d), Low(my, d) != 0) else 1
  }

  lemma AlignJammed(absy: nat, d: nat)
    requires 0 < absy < INF
    ensures Jammed(8 * Mant(absy), Pow2(d), Align(absy, d))
  {
    if d < 13 {
      ShiftJammed(Mant(absy) * 8, d);
    } else {
      FarJammed(Mant(absy) * 8, d);
    }
  }

  lemma ShiftJammed(a: nat, d: nat)
    ensures Jammed(a, Pow2(d), Jam(Shr(a, d), Low(a, d) != 0))
  {
    hide Sticky, Shr, Low;
    WholeIsSticky(a);
    assert Pow2(0) * 1 == 1 && Pow2(0 + d) * 1 == Pow2(d);
    StickyShift(a, 0, 1, a, false, d);
    StickyHalve(a, Pow2(d), Shr(a, d), Low(a, d) != 0);
  }

  lemma FarJammed(a: nat, d: nat)
    requires 0 < a < 0x4000 && d >= 13
    ensures Jammed(a, Pow2(d), 1)
  {
    Pow2Values();
    Pow2Mono(13, d);
  }

  lemma WholeIsSticky(a: nat)
    ensures Sticky(a, 1, a, false)
  {
  }

  lemma AlignBounds(absy: nat, d: nat)
    requires 0 < absy < INF
    ensures d == 0 ==> Align(absy, d) == Mant(absy) * 8
    ensures d == 1 ==> Align(absy, d) == Mant(absy) * 4
    ensures d >= 1 ==> Align(absy, d) <= 8188
    ensures d >= 2 ==> Align(absy, d) <= 4095
  {
    var a := Mant(absy) * 8;
    if d == 1 {
      assert Shr(a, 1) == a / 2 && Low(a, 1) == a % 2;
    } else if 2 <= d < 13 {
      ShrFour(a, d);
    }
  }

  lemma ShrFour(a: nat, d: nat)
    requires d >= 2
    ensures Shr(a, d) <= a / 4
  {
    assert Shr(a, d) == Shr(a / 2 / 2, d - 2);
    ShrShrinks(a / 2 / 2, d - 2);
  }

  lemma {:induction false} ShrShrinks(a: nat, d: nat)
    ensures Shr(a, d) <= a
  {
    if d > 0 {
      ShrShrinks(a / 2, d - 1);
    }
  }

  lemma ScaleJammed(N: int, P: int, M: nat, u: int)
    requires u > 0 && Jammed(N, P, M)
    ensures Jammed(N * u, P * u, M)
  {
    Associate(2, P, u);
    StickyScale(N * u, 2 * (P * u), N, 2 * P, 1, u, M / 2, M % 2 == 1);
  }

  /** Both operands in units of an eighth of the larger one's last place. */
  lemma AlignOperands(absx: nat, absy: nat)
    requires 0 < absy <= absx < INF
    ensures Exp(absy) <= Exp(absx) && Mant(absx) < 0x800
    ensures Exp(absx) == Exp(absy) ==> Mant(absy) <= Mant(absx)
    ensures Exp(absx) > 1 ==> Mant(absx) >= 0x400
    ensures Exp(absx) <= 30
    ensures 8 * Mag(absx) == 4 * Mant(absx) * (2 * Ulp(absx))
    ensures Jammed(8 * Mag(absy), Ulp(absx), Align(absy, Exp(absx) - Exp(absy)))
  {
    var d := Exp(absx) - Exp(absy);
    MagIsMantissaTimesExponent(absx);
    MagIsMantissaTimesExponent(absy);
    Eighths(Mant(absx), Ulp(absx));
    AlignJammed(absy, d);
    ScaleJammed(8 * Mant(absy), Pow2(d), Align(absy, d), Ulp(absy));
    Associate(8, Mant(absy), Ulp(absy));
    Pow2Add(d, Exp(absy) - 1);
  }

  lemma Eighths(m: int, u: int)
    ensures 8 * (m * u) == 4 * m * (2 * u)
  {
  }

  // Rounding the sum ----------------------------------------------------------------------------------

  lemma RoundEighths(exp: nat, M: nat, z: nat, sign: nat)
    requires 1 <= exp <= 30 && M < 0x4000 && (M >= 0x2000 || exp == 1)
    requires Roundable(8 * z, Pow2(exp - 1), M)
    requires sign == 0 || sign == 0x8000
    ensures Rounded(sign + (exp - 1) * 0x400 + M / 8, M / 4 % 2, M % 4 != 0) < 0x10000
    ensures Rounds(z, 1, sign, Rounded(sign + (exp - 1) * 0x400 + M / 8, M / 4 % 2, M % 4 != 0))
  {
    hide Sticky, Rounds, Rounded;
    var P := Pow2(exp - 1);
    StickyScale(8 * z, 4 * P, 2 * z, P * 1, 1, 4, M / 4, M % 4 != 0);
    assert 2 * (M / 8) + M / 4 % 2 == M / 4;
    RoundMantissa(exp, M / 8, M / 4 % 2, M % 4 != 0, z, 1, sign);
  }

  /** Magnitudes with equal signs: PIMSimulator/lib/half.h:2711-2718. */
  function AddMagnitudes(absx: nat, absy: nat, sign: nat): nat
    requires absy <= absx
  {
    var exp := Exp(absx);
    var M := Mant(absx) * 8 + Align(absy, if Exp(absy) <= exp then exp - Exp(absy) else 0);
    var i := if M >= 0x4000 then 1 else 0;
    if exp + i > 30 then sign + INF
    else
      var M' := if i == 1 then Jam(M / 2, M % 2 == 1) else M;
      Rounded(sign + (exp + i - 1) * 0x400 + M' / 8, M' / 4 % 2, M' % 4 != 0)
  }

  lemma AddMagnitudesRounds(absx: nat, absy: nat, sign: nat)
    requires 0 < absy <= absx < INF
    requires sign == 0 || sign == 0x8000
    ensures AddMagnitudes(absx, absy, sign) < 0x10000
    ensures Rounds(Mag(absx) + Mag(absy), 1, sign, AddMagnitudes(absx, absy, sign))
  {
    hide Sticky, Rounds, Rounded, Mag, Ulp, NearestEven, Align, Jammed, Roundable, Mant, Exp, Shr;
    AlignOperands(absx, absy);
    var exp, P, z := Exp(absx), Ulp(absx), Mag(absx) + Mag(absy);
    var my := Align(absy, exp - Exp(absy));
    AlignBounds(absy, exp - Exp(absy));
    JammedPlus(8 * Mag(absy), P, my, 4 * Mant(absx));
    var M := Mant(absx) * 8 + my;
    MagIsMantissaTimesExponent(absx);
    if M < 0x4000 {
      JammedIsRoundable(8 * z, P, M);
      RoundEighths(exp, M, z, sign);
    } else {
      CarryOut(exp, M, z, sign);
    }
  }

  lemma CarryOut(exp: nat, M: nat, z: nat, sign: nat)
    requires 1 <= exp <= 30 && 0x4000 <= M < 0x8000
    requires Jammed(8 * z, Pow2(exp - 1), M)
    requires sign == 0 || sign == 0x8000
    ensures var M' := Jam(M / 2, M % 2 == 1);
            if exp == 30 then Rounds(z, 1, sign, sign + INF)
            else var r := Rounded(sign + exp * 0x400 + M' / 8, M' / 4 % 2, M' % 4 != 0);
                 r < 0x10000 && Rounds(z, 1, sign, r)
  {
    hide Rounds, Rounded, NearestEven, Mag;
    if exp == 30 {
      Pow2Values();
      Pow2Add(20, 9);
      Pow2Add(30, 10);
      MulMono(0x2000, M / 2, 2 * Pow2(29));
      MagInf();
      NearestBeyond(z, 1);
      WithSign(z, 1, sign, INF);
    } else {
      hide Sticky;
      JammedHalve(8 * z, Pow2(exp - 1), M);
      JammedIsRoundable(8 * z, Pow2(exp), Jam(M / 2, M % 2 == 1));
      RoundEighths(exp + 1, Jam(M / 2, M % 2 == 1), z, sign);
    }
  }

  /** Magnitudes with opposite signs, with the normalisation loop: PIMSimulator/lib/half.h:2697-2718. */
  method SubMagnitudes(absx: nat, absy: nat, sign: nat) returns (r: nat)
    requires 0 < absy <= absx < INF
    requires sign == 0 || sign == 0x8000
    ensures r < 0x10000
    ensures Mag(absx) == Mag(absy) ==> r == 0
    ensures Mag(absx) > Mag(absy) ==> Rounds(Mag(absx) - Mag(absy), 1, sign, r)
    ensures Mag(absx) >= Mag(absy)
  {
    hide Sticky, Rounds, Rounded, Mag, Ulp, Align, Jammed, Roundable, Mant, Exp, Shr;
    AlignOperands(absx, absy);
    var exp := Exp(absx);
    var d := exp - Exp(absy);
    var my := Align(absy, d);
    AlignBounds(absy, d);
    var mx := Mant(absx) * 8 - my;
    ghost var z := Difference(absx, absy, d, mx);
    if mx == 0 {
      return 0;
    }
    ghost var exact := d <= 1;
    while mx < 0x2000 && exp > 1
      invariant 1 <= exp <= 30 && 0 < mx < 0x4000
      invariant exact ==> 8 * z == mx * Pow2(exp - 1)
      invariant !exact ==> mx >= 0x1000 && Roundable(8 * z, Pow2(exp - 1), mx)
      invariant !exact && mx < 0x2000 ==> Jammed(8 * z, Pow2(exp - 1), mx)
    {
      Rescale(8 * z, exp, mx);
      mx, exp := 2 * mx, exp - 1;
    }
    if exact {
      ExactIsRoundable(8 * z, Pow2(exp - 1), mx);
    }
    RoundEighths(exp, mx, z, sign);
    r := Rounded(sign + (exp - 1) * 0x400 + mx / 8, mx / 4 % 2, mx % 4 != 0);
  }

  /** One step of the normalisation loop. */
  lemma Rescale(N: int, exp: nat, mx: nat)
    requires exp > 1
    ensures N == mx * Pow2(exp - 1) ==> N == 2 * mx * Pow2(exp - 2)
    ensures Jammed(N, Pow2(exp - 1), mx) ==> Roundable(N, Pow2(exp - 2), 2 * mx)
  {
    DoubleLast(mx, exp - 2);
    assert 4 * Pow2(exp - 2) == 2 * Pow2(exp - 1);
    assert 2 * mx / 4 == mx / 2;
  }

  lemma Difference(absx: nat, absy: nat, d: nat, mx: nat) returns (z: nat)
    requires 0 < absy <= absx < INF
    requires Exp(absy) <= Exp(absx) && d == Exp(absx) - Exp(absy)
    requires mx == Mant(absx) * 8 - Align(absy, d)
    ensures z == Mag(absx) - Mag(absy)
    ensures z == 0 <==> mx == 0
    ensures d <= 1 ==> 8 * z == mx * Pow2(Exp(absx) - 1)
    ensures d > 1 ==> mx >= 0x1000 && Jammed(8 * z, Pow2(Exp(absx) - 1), mx)
                      && Roundable(8 * z, Pow2(Exp(absx) - 1), mx)
  {
    hide *;
    AlignOperands(absx, absy);
    AlignBounds(absy, d);
    MagIsMantissaTimesExponent(absx);
    MagOrder(absx, absy);
    z := Mag(absx) - Mag(absy);
    var P, my, k := Ulp(absx), Align(absy, d), 4 * Mant(absx);
    JammedMinus(8 * Mag(absy), P, my, k);
    assert 8 * z == k * (2 * P) - 8 * Mag(absy) && mx == 2 * k - my;
    if d <= 1 {
      ExactDifference(z, P, mx);
    } else {
      JammedIsRoundable(8 * z, P, mx);
    }
  }

  lemma ExactDifference(z: nat, P: int, mx: nat)
    requires P > 0 && mx % 2 == 0 && Jammed(8 * z, P, mx)
    ensures 8 * z == mx * P
    ensures z == 0 <==> mx == 0
  {
    JammedIsExactWhenEven(8 * z, P, mx);
    MulCancel(0, mx, P);
  }

  /** `operator+`. */
  method Add(x: Half, y: Half) returns (r: Half)
    ensures IsSum(x, y, r)
  {
    hide Rounds, Rounded, Mag, Align, AddMagnitudes;
    var absx, absy := AbsBits(x), AbsBits(y);
    var sub := Sign(x) != Sign(y);
    if absx >= INF || absy >= INF {
      return if absx > INF || absy > INF then Quiet(x, y)
             else if absy != INF then x
             else if sub && absx == INF then INVALID
             else y;
    }
    ValFacts(x);
    ValFacts(y);
    if absx == 0 {
      return if absy != 0 then y else if x == y == 0x8000 then 0x8000 else 0;
    }
    if absy == 0 {
      return x;
    }
    var sign := Sign(if sub && absy > absx then y else x);
    if absy > absx {
      absx, absy := absy, absx;
    }
    MagOrder(absx, absy);
    if sub {
      r := SubMagnitudes(absx, absy, sign);
    } else {
      AddMagnitudesRounds(absx, absy, sign);
      r := AddMagnitudes(absx, absy, sign);
    }
  }

  lemma MagOrder(a: nat, b: nat)
    requires 0 < b <= a < INF
    ensures b < a ==> Mag(b) < Mag(a)
  {
    if b < a {
      MagMono(b, a);
    }
  }

  lemma ValFacts(h: Half)
    requires IsFinite(h)
    ensures Mag(AbsBits(h)) == 0 <==> AbsBits(h) == 0
    ensures Rounds(Mag(AbsBits(h)), 1, Sign(h), h)
  {
    if AbsBits(h) > 0 {
      MagMono(0, AbsBits(h));
    }
    ExactRounds(AbsBits(h));
  }

  /** `operator-`: x + -y, where negation flips the sign bit. */
  method Sub(x: Half, y: Half) returns (r: Half)
    ensures IsSum(x, Negate(y), r)
  {
    r := Add(x, Negate(y));
  }

  /** The other sign, and otherwise the same pattern, be it a number, an infinity or a NaN. */
  function Negate(y: Half): (r: Half)
    ensures Sign(r) != Sign(y) && AbsBits(r) == AbsBits(y)
    ensures IsFinite(y) ==> IsFinite(r) && Val(r) == -Val(y)
  {
    if y < 0x8000 then y + 0x8000 else y - 0x8000
  }
}
