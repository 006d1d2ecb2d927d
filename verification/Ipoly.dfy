/** The IPOLY channel hash: ONNXim/src/Hashing.cc. An address is its list of bits, least significant first. */
module Ipoly {

  import opened Options

  type Bits = seq<bool>

  /** A bank number, or a polynomial over GF(2) of degree below 6: the coefficients of 1, x, x^2, ... */
  datatype Vec = Vec(c0: bool, c1: bool, c2: bool, c3: bool, c4: bool, c5: bool) {
    function Plus(v: Vec): Vec {
      Vec(c0 != v.c0, c1 != v.c1, c2 != v.c2, c3 != v.c3, c4 != v.c4, c5 != v.c5)
    }

    function Coefficient(k: nat): bool {
      if k == 0 then c0 else if k == 1 then c1 else if k == 2 then c2
      else if k == 3 then c3 else if k == 4 then c4 else c5
    }

    predicate Fits(n: nat) {
      (c4 ==> n >= 5) && (c5 ==> n >= 6)
    }

    /** `to_ulong`. */
    function ToNat(): nat {
      Digit(c0, 1) + Digit(c1, 2) + Digit(c2, 4) + Digit(c3, 8) + Digit(c4, 16) + Digit(c5, 32)
    }
  }

  function Digit(b: bool, weight: nat): nat {
    if b then weight else 0
  }

  const ZERO := Vec(false, false, false, false, false, false)
  const ONE := Vec(true, false, false, false, false, false)

  // The code ------------------------------------------------------------------------------------------

  /** The exclusive or of the bits of a at the positions in taps, from lo up to hi. */
  function XorAt(a: Bits, taps: set<nat>, lo: nat, hi: nat): bool
    requires lo <= hi <= |a|
    decreases hi - lo
  {
    if lo == hi then false else (lo in taps && a[lo]) != XorAt(a, taps, lo + 1, hi)
  }

  /** log2 of the supported bank counts. */
  predicate Degree(n: nat) { n == 4 || n == 5 || n == 6 }

  /** How many of the higher address bits the hash for 2^n banks reads. */
  function Window(n: nat): nat
    requires Degree(n)
  {
    if n == 4 then 13 else if n == 5 then 15 else 19
  }

  /** The bits of a that each output bit xors, as written in the source for 16, 32 and 64 banks. */
  function Taps(n: nat, k: nat): set<nat>
    requires Degree(n) && k < n
  {
    if n == 4 then
      if k == 0 then {11, 10, 9, 8, 6, 4, 3, 0}
      else if k == 1 then {12, 8, 7, 6, 5, 3, 1, 0}
      else if k == 2 then {9, 8, 7, 6, 4, 2, 1}
      else {10, 9, 8, 7, 5, 3, 2}
    else if n == 5 then
      if k == 0 then {13, 12, 11, 10, 9, 6, 5, 3, 0}
      else if k == 1 then {14, 13, 12, 11, 10, 7, 6, 4, 1}
      else if k == 2 then {14, 10, 9, 8, 7, 6, 3, 2, 0}
      else if k == 3 then {11, 10, 9, 8, 7, 4, 3, 1}
      else {12, 11, 10, 9, 8, 5, 4, 2}
    else
      if k == 0 then {18, 17, 16, 15, 12, 10, 6, 5, 0}
      else if k == 1 then {15, 13, 12, 11, 10, 7, 5, 1, 0}
      else if k == 2 then {16, 14, 13, 12, 11, 8, 6, 2, 1}
      else if k == 3 then {17, 15, 14, 13, 12, 9, 7, 3, 2}
      else if k == 4 then {18, 16, 15, 14, 13, 10, 8, 4, 3}
      else {17, 16, 15, 14, 11, 9, 5, 4}
  }

  function OutputBit(n: nat, a: Bits, b: Bits, k: nat): bool
    requires Degree(n) && |a| >= Window(n) && |b| >= n
  {
    k < n && XorAt(a, Taps(n, k), 0, Window(n)) != b[k]
  }

  function Hash(n: nat, a: Bits, b: Bits): Vec
    requires Degree(n) && |a| >= Window(n) && |b| >= n
  {
    Vec(OutputBit(n, a, b, 0), OutputBit(n, a, b, 1), OutputBit(n, a, b, 2),
        OutputBit(n, a, b, 3), OutputBit(n, a, b, 4), OutputBit(n, a, b, 5))
  }

  /** `ipoly_hash_function`; None where the program exits. */
  function IpolyHash(higherBits: Bits, index: Bits, banks: nat): Option<nat>
    requires |higherBits| == 64 && |index| == 32
  {
    if banks == 16 then Some(Hash(4, higherBits, index).ToNat())
    else if banks == 32 then Some(Hash(5, higherBits, index).ToNat())
    else if banks == 64 then Some(Hash(6, higherBits, index).ToNat())
    else None
  }

  // The algebra ---------------------------------------------------------------------------------------

  /** Multiplication by x modulo x^4+x+1, x^5+x^2+1 or x^6+x+1. */
  function TimesX(n: nat, v: Vec): Vec
    requires Degree(n)
  {
    if n == 4 then Vec(v.c3, v.c0 != v.c3, v.c1, v.c2, false, false)
    else if n == 5 then Vec(v.c4, v.c0, v.c1 != v.c4, v.c2, v.c3, false)
    else Vec(v.c5, v.c0 != v.c5, v.c1, v.c2, v.c3, v.c4)
  }

  function OverX(n: nat, v: Vec): Vec
    requires Degree(n)
  {
    if n == 4 then Vec(v.c1 != v.c0, v.c2, v.c3, v.c0, false, false)
    else if n == 5 then Vec(v.c1, v.c2 != v.c0, v.c3, v.c4, v.c0, false)
    else Vec(v.c1 != v.c0, v.c2, v.c3, v.c4, v.c5, v.c0)
  }

  /** x^k * v. */
  function Raise(n: nat, v: Vec, k: nat): Vec
    requires Degree(n)
  {
    if k == 0 then v else TimesX(n, Raise(n, v, k - 1))
  }

  /** v times the polynomial with coefficients a[lo..hi], reduced: bit lo + j contributes x^j * v. */
  function Residue(n: nat, a: Bits, lo: nat, hi: nat, v: Vec): Vec
    requires Degree(n) && lo <= hi <= |a|
    decreases hi - lo
  {
    if lo == hi then ZERO
    else (if a[lo] then v else ZERO).Plus(Residue(n, a, lo + 1, hi, TimesX(n, v)))
  }

  function Low(n: nat, b: Bits): Vec
    requires Degree(n) && |b| >= n
  {
    Vec(b[0], b[1], b[2], b[3], n >= 5 && b[4], n >= 6 && b[5])
  }

  /** x^n modulo the polynomial of degree n: where the higher bits of the address start. */
  function Start(n: nat): Vec
    requires Degree(n)
  {
    Raise(n, ONE, n)
  }

  /** taps are the positions whose power of x has a term x^k. */
  ghost predicate IsColumn(n: nat, k: nat, taps: set<nat>)
    requires Degree(n)
  {
    forall i: nat :: i < Window(n) ==> (i in taps <==> Raise(n, Start(n), i).Coefficient(k))
  }

  lemma {:induction false} CoefficientOfResidue(n: nat, a: Bits, k: nat, taps: set<nat>, lo: nat)
    requires Degree(n) && k < 6 && lo <= Window(n) <= |a|
    requires IsColumn(n, k, taps)
    ensures Residue(n, a, lo, Window(n), Raise(n, Start(n), lo)).Coefficient(k) == XorAt(a, taps, lo, Window(n))
    decreases Window(n) - lo
  {
    if lo < Window(n) {
      CoefficientOfResidue(n, a, k, taps, lo + 1);
      assert lo in taps <==> Raise(n, Start(n), lo).Coefficient(k);
    }
  }

  /** The binary digits of a number below 64. */
  function FromNat(v: nat): Vec {
    var v4 := Rest(v, 32);
    var v3 := Rest(v4, 16);
    var v2 := Rest(v3, 8);
    var v1 := Rest(v2, 4);
    Vec(Rest(v1, 2) >= 1, v1 >= 2, v2 >= 4, v3 >= 8, v4 >= 16, v >= 32)
  }

  function Rest(v: nat, weight: nat): nat {
    if v >= weight then v - weight else v
  }

  /** x^(n+i) as a number: each entry is the one before times x. */
  function Power(n: nat, i: nat): nat
    requires Degree(n) && i < Window(n)
  {
    if n == 4 then [3, 6, 12, 11, 5, 10, 7, 14, 15, 13, 9, 1, 2][i]
    else if n == 5 then [5, 10, 20, 13, 26, 17, 7, 14, 28, 29, 31, 27, 19, 3, 6][i]
    else [3, 6, 12, 24, 48, 35, 5, 10, 20, 40, 19, 38, 15, 30, 60, 59, 53, 41, 17][i]
  }

  lemma {:induction false} PowerTable(n: nat, i: nat)
    requires Degree(n) && i < Window(n)
    ensures Raise(n, Start(n), i) == FromNat(Power(n, i))
  {
    if i == 0 {
      assert Start(4) == FromNat(3) && Start(5) == FromNat(5) && Start(6) == FromNat(3);
    } else {
      PowerTable(n, i - 1);
      if n == 4 {
        NextPower16(i - 1);
      } else if n == 5 {
        NextPower32(i - 1);
      } else {
        NextPower64(i - 1);
      }
    }
  }

  lemma NextPower16(i: nat)
    requires i < 12
    ensures TimesX(4, FromNat(Power(4, i))) == FromNat(Power(4, i + 1))
  {
  }

  lemma NextPower32(i: nat)
    requires i < 14
    ensures TimesX(5, FromNat(Power(5, i))) == FromNat(Power(5, i + 1))
  {
    if i < 7 {
      NextPower32Low(i);
    } else {
      NextPower32High(i);
    }
  }

  lemma NextPower32Low(i: nat)
    requires i < 7
    ensures TimesX(5, FromNat(Power(5, i))) == FromNat(Power(5, i + 1))
  {
  }

  lemma NextPower32High(i: nat)
    requires 7 <= i < 14
    ensures TimesX(5, FromNat(Power(5, i))) == FromNat(Power(5, i + 1))
  {
  }

  lemma NextPower64(i: nat)
    requires i < 18
    ensures TimesX(6, FromNat(Power(6, i))) == FromNat(Power(6, i + 1))
  {
    if i < 6 {
      NextPower64Low(i);
    } else if i < 12 {
      NextPower64Middle(i);
    } else {
      NextPower64High(i);
    }
  }

  lemma NextPower64Low(i: nat)
    requires i < 6
    ensures TimesX(6, FromNat(Power(6, i))) == FromNat(Power(6, i + 1))
  {
  }

  lemma NextPower64Middle(i: nat)
    requires 6 <= i < 12
    ensures TimesX(6, FromNat(Power(6, i))) == FromNat(Power(6, i + 1))
  {
  }

  lemma NextPower64High(i: nat)
    requires 12 <= i < 18
    ensures TimesX(6, FromNat(Power(6, i))) == FromNat(Power(6, i + 1))
  {
  }

  lemma Tapped16(k: nat, i: nat)
    requires k < 4 && i < 13
    ensures i in Taps(4, k) <==> FromNat(Power(4, i)).Coefficient(k)
  {
  }

  lemma Tapped32(k: nat, i: nat)
    requires k < 5 && i < 15
    ensures i in Taps(5, k) <==> FromNat(Power(5, i)).Coefficient(k)
  {
  }

  lemma Tapped64(k: nat, i: nat)
    requires k < 6 && i < 19
    ensures i in Taps(6, k) <==> FromNat(Power(6, i)).Coefficient(k)
  {
    if i < 9 {
      Tapped64Low(k, i);
    } else if i < 14 {
      Tapped64Middle(k, i);
    } else {
      Tapped64High(k, i);
    }
  }

  lemma Tapped64Low(k: nat, i: nat)
    requires k < 6 && i < 9
    ensures i in Taps(6, k) <==> FromNat(Power(6, i)).Coefficient(k)
  {
  }

  lemma Tapped64Middle(k: nat, i: nat)
    requires k < 6 && 9 <= i < 14
    ensures i in Taps(6, k) <==> FromNat(Power(6, i)).Coefficient(k)
  {
  }

  lemma Tapped64High(k: nat, i: nat)
    requires k < 6 && 14 <= i < 19
    ensures i in Taps(6, k) <==> FromNat(Power(6, i)).Coefficient(k)
  {
  }

  /** The taps in the source are exactly the columns of the powers of x. */
  lemma TapsAreColumns(n: nat, k: nat)
    requires Degree(n) && k < n
    ensures IsColumn(n, k, Taps(n, k))
  {
    hide Taps, Power, FromNat, Raise, Start, Vec.Coefficient;
    forall i: nat | i < Window(n)
      ensures i in Taps(n, k) <==> Raise(n, Start(n), i).Coefficient(k)
    {
      PowerTable(n, i);
      if n == 4 {
        Tapped16(k, i);
      } else if n == 5 {
        Tapped32(k, i);
      } else {
        Tapped64(k, i);
      }
    }
  }

  /** The hash is the residue of the whole address, the index below the higher bits: a(x) * x^n + b(x). */
  lemma HashIsResidue(n: nat, a: Bits, b: Bits)
    requires Degree(n) && |a| >= Window(n) && |b| >= n
    ensures Hash(n, a, b) == Residue(n, a, 0, Window(n), Start(n)).Plus(Low(n, b))
  {
    hide Start, Taps, XorAt, Raise;
    var r := Residue(n, a, 0, Window(n), Start(n));
    forall k: nat | k < n
      ensures OutputBit(n, a, b, k) == (r.Coefficient(k) != b[k])
    {
      OutputIsCoefficient(n, a, b, k);
    }
    StartFits(n);
    ResidueFits(n, a, 0, Window(n), Start(n));
  }

  lemma StartFits(n: nat)
    requires Degree(n)
    ensures Start(n).Fits(n)
  {
  }

  lemma OutputIsCoefficient(n: nat, a: Bits, b: Bits, k: nat)
    requires Degree(n) && |a| >= Window(n) && |b| >= n && k < n
    ensures OutputBit(n, a, b, k) == (Residue(n, a, 0, Window(n), Start(n)).Coefficient(k) != b[k])
  {
    TapsAreColumns(n, k);
    CoefficientOfResidue(n, a, k, Taps(n, k), 0);
  }

  lemma {:induction false} ResidueFits(n: nat, a: Bits, lo: nat, hi: nat, v: Vec)
    requires Degree(n) && lo <= hi <= |a| && v.Fits(n)
    ensures Residue(n, a, lo, hi, v).Fits(n)
    decreases hi - lo
  {
    if lo < hi {
      ResidueFits(n, a, lo + 1, hi, TimesX(n, v));
    }
  }

  // Conflict freedom ----------------------------------------------------------------------------------

  /** Division by x undoes multiplication by x: the polynomial has a constant term. */
  lemma OverTimes(n: nat, v: Vec)
    requires Degree(n) && v.Fits(n)
    ensures OverX(n, TimesX(n, v)) == v == TimesX(n, OverX(n, v))
    ensures TimesX(n, v).Fits(n) && OverX(n, v).Fits(n)
  {
  }

  lemma TimesPlus(n: nat, u: Vec, v: Vec)
    requires Degree(n)
    ensures TimesX(n, u.Plus(v)) == TimesX(n, u).Plus(TimesX(n, v))
  {
    if n == 4 {
      TimesPlus16(u, v);
    } else if n == 5 {
      TimesPlus32(u, v);
    } else {
      TimesPlus64(u, v);
    }
  }

  lemma TimesPlus16(u: Vec, v: Vec)
    ensures TimesX(4, u.Plus(v)) == TimesX(4, u).Plus(TimesX(4, v))
  {
    Exchange(u.c0, v.c0, u.c3, v.c3);
  }

  lemma TimesPlus32(u: Vec, v: Vec)
    ensures TimesX(5, u.Plus(v)) == TimesX(5, u).Plus(TimesX(5, v))
  {
    Exchange(u.c1, v.c1, u.c4, v.c4);
  }

  lemma TimesPlus64(u: Vec, v: Vec)
    ensures TimesX(6, u.Plus(v)) == TimesX(6, u).Plus(TimesX(6, v))
  {
    Exchange(u.c0, v.c0, u.c5, v.c5);
  }

  lemma Exchange(a: bool, b: bool, c: bool, d: bool)
    ensures ((a != b) != (c != d)) == ((a != c) != (b != d))
  {
  }

  function Lower(n: nat, v: Vec, k: nat): Vec
    requires Degree(n)
    decreases k
  {
    if k == 0 then v else Lower(n, OverX(n, v), k - 1)
  }

  lemma {:induction false} RaiseLower(n: nat, v: Vec, k: nat)
    requires Degree(n) && v.Fits(n)
    ensures Raise(n, Lower(n, v, k), k) == v && Lower(n, Raise(n, v, k), k) == v
    ensures Lower(n, v, k).Fits(n) && Raise(n, v, k).Fits(n)
    decreases k
  {
    if k > 0 {
      hide TimesX, OverX, Vec.Fits;
      OverTimes(n, v);
      RaiseLower(n, OverX(n, v), k - 1);
      RaiseLower(n, v, k - 1);
      OverTimes(n, Raise(n, v, k - 1));
    }
  }

  lemma {:induction false} RaiseOfSum(n: nat, j: nat, k: nat, v: Vec)
    requires Degree(n)
    ensures Raise(n, Raise(n, v, j), k) == Raise(n, v, j + k)
  {
    if k > 0 {
      RaiseOfSum(n, j, k - 1, v);
    }
  }

  /** Scaling by x^k commutes with taking residues. */
  lemma {:induction false} ResidueRaise(n: nat, a: Bits, lo: nat, hi: nat, v: Vec)
    requires Degree(n) && lo <= hi <= |a|
    ensures Residue(n, a, lo, hi, TimesX(n, v)) == TimesX(n, Residue(n, a, lo, hi, v))
    decreases hi - lo
  {
    if lo < hi {
      ResidueRaise(n, a, lo + 1, hi, TimesX(n, v));
      TimesPlus(n, if a[lo] then v else ZERO, Residue(n, a, lo + 1, hi, TimesX(n, v)));
    }
  }

  lemma {:induction false} ResidueRaisePow(n: nat, a: Bits, lo: nat, hi: nat, k: nat)
    requires Degree(n) && lo <= hi <= |a|
    ensures Residue(n, a, lo, hi, Raise(n, ONE, k)) == Raise(n, Residue(n, a, lo, hi, ONE), k)
    decreases k
  {
    if k > 0 {
      ResidueRaisePow(n, a, lo, hi, k - 1);
      ResidueRaise(n, a, lo, hi, Raise(n, ONE, k - 1));
    }
  }

  lemma {:induction false} ResidueSplit(n: nat, a: Bits, lo: nat, mid: nat, hi: nat, k: nat)
    requires Degree(n) && lo <= mid <= hi <= |a|
    ensures Residue(n, a, lo, hi, Raise(n, ONE, k)) ==
            Residue(n, a, lo, mid, Raise(n, ONE, k)).Plus(Residue(n, a, mid, hi, Raise(n, ONE, k + (mid - lo))))
    decreases mid - lo
  {
    if lo < mid {
      hide TimesX, Vec.Plus;
      ResidueSplit(n, a, lo + 1, mid, hi, k + 1);
      PlusAssociates(if a[lo] then Raise(n, ONE, k) else ZERO, Residue(n, a, lo + 1, mid, Raise(n, ONE, k + 1)),
                     Residue(n, a, mid, hi, Raise(n, ONE, k + (mid - lo))));
    } else {
      PlusZero(Residue(n, a, mid, hi, Raise(n, ONE, k)));
    }
  }

  lemma PlusAssociates(p: Vec, q: Vec, r: Vec)
    ensures p.Plus(q.Plus(r)) == p.Plus(q).Plus(r)
  {
  }

  lemma PlusZero(v: Vec)
    ensures ZERO.Plus(v) == v
  {
  }

  lemma {:induction false} ResidueSame(n: nat, a: Bits, a': Bits, lo: nat, lo': nat, len: nat, v: Vec)
    requires Degree(n) && lo + len <= |a| && lo' + len <= |a'|
    requires a[lo..lo + len] == a'[lo'..lo' + len]
    ensures Residue(n, a, lo, lo + len, v) == Residue(n, a', lo', lo' + len, v)
    decreases len
  {
    if len > 0 {
      assert a[lo] == a[lo..lo + len][0] == a'[lo'];
      assert a[lo + 1..lo + len] == a[lo..lo + len][1..] == a'[lo' + 1..lo' + len];
      ResidueSame(n, a, a', lo + 1, lo' + 1, len - 1, TimesX(n, v));
    }
  }

  /** The first n powers of x need no reduction. */
  lemma ResidueOfWindow(n: nat, w: Bits)
    requires Degree(n) && |w| == n
    ensures Residue(n, w, 0, n, ONE) == Low(n, w)
  {
    var x5 := Vec(false, false, false, false, false, true);
    var x4 := Vec(false, false, false, false, true, false);
    var x3 := Vec(false, false, false, true, false, false);
    var x2 := Vec(false, false, true, false, false, false);
    var x1 := Vec(false, true, false, false, false, false);
    if n == 6 {
      assert Residue(n, w, 5, n, x5) == Vec(false, false, false, false, false, w[5]);
    }
    if n >= 5 {
      assert Residue(n, w, 4, n, x4) == Vec(false, false, false, false, w[4], n >= 6 && w[5]);
    }
    assert Residue(n, w, 3, n, x3) == Vec(false, false, false, w[3], n >= 5 && w[4], n >= 6 && w[5]);
    assert Residue(n, w, 2, n, x2) == Vec(false, false, w[2], w[3], n >= 5 && w[4], n >= 6 && w[5]);
    assert Residue(n, w, 1, n, x1) == Vec(false, w[1], w[2], w[3], n >= 5 && w[4], n >= 6 && w[5]);
  }

  lemma PlusRegroup(p: Vec, q: Vec, r: Vec, t: Vec)
    ensures p.Plus(q.Plus(r)).Plus(t) == p.Plus(r).Plus(t).Plus(q)
  {
  }

  /** The address a with the n bits from s replaced by w. */
  function WithWindow(n: nat, a: Bits, s: nat, w: Bits): (a': Bits)
    requires s + n <= |a| && |w| == n
    ensures |a'| == |a|
  {
    a[..s] + w + a[s + n..]
  }

  /** What the bits of the address outside the window, and the index, contribute. */
  function Outside(n: nat, a: Bits, b: Bits, s: nat): Vec
    requires Degree(n) && s + n <= Window(n) <= |a| && |b| >= n
  {
    Residue(n, a, 0, s, Start(n)).Plus(Residue(n, a, s + n, Window(n), Raise(n, ONE, n + s + n))).Plus(Low(n, b))
  }

  lemma WindowSlices(n: nat, a: Bits, s: nat, w: Bits, W: nat)
    requires s + n <= W <= |a| && |w| == n
    ensures var a' := WithWindow(n, a, s, w);
            a'[0..s] == a[0..s] && a'[s..s + n] == w[0..n] && a'[s + n..W] == a[s + n..W]
  {
    var a', tail := WithWindow(n, a, s, w), a[s + n..];
    assert a'[s + n..] == tail;
    assert a'[s + n..W] == a'[s + n..][..W - s - n] == tail[..W - s - n];
  }

  lemma HashOfWindow(n: nat, a: Bits, b: Bits, s: nat, w: Bits)
    requires Degree(n) && s + n <= Window(n) <= |a| && |b| >= n && |w| == n
    ensures Hash(n, WithWindow(n, a, s, w), b) == Outside(n, a, b, s).Plus(Raise(n, Low(n, w), n + s))
  {
    hide TimesX, Raise, Low, Hash, Vec.Plus, Residue;
    var a', W := WithWindow(n, a, s, w), Window(n);
    HashIsResidue(n, a', b);
    ResidueSplit(n, a', 0, s, W, n);
    ResidueSplit(n, a', s, s + n, W, n + s);
    WindowSlices(n, a, s, w, W);
    ResidueSame(n, a', a, 0, 0, s, Start(n));
    ResidueSame(n, a', w, s, 0, n, Raise(n, ONE, n + s));
    ResidueSame(n, a', a, s + n, s + n, W - (s + n), Raise(n, ONE, n + s + n));
    ResidueRaisePow(n, w, 0, n, n + s);
    ResidueOfWindow(n, w);
    PlusRegroup(Residue(n, a, 0, s, Start(n)), Raise(n, Low(n, w), n + s),
                Residue(n, a, s + n, W, Raise(n, ONE, n + s + n)), Low(n, b));
  }

  function Banks(n: nat): nat
    requires Degree(n)
  {
    if n == 4 then 16 else if n == 5 then 32 else 64
  }

  function FromLow(n: nat, v: Vec): (w: Bits)
    requires Degree(n) && v.Fits(n)
    ensures |w| == n && Low(n, w) == v
  {
    [v.c0, v.c1, v.c2, v.c3] + (if n >= 5 then [v.c4] else []) + (if n >= 6 then [v.c5] else [])
  }

  lemma LowInjective(n: nat, w: Bits)
    requires Degree(n) && |w| == n
    ensures Low(n, w).Fits(n) && FromLow(n, Low(n, w)) == w
  {
  }

  lemma NatRoundTrip(n: nat, bank: nat)
    requires Degree(n) && bank < Banks(n)
    ensures FromNat(bank).Fits(n) && FromNat(bank).ToNat() == bank
  {
  }

  lemma VecRoundTrip(v: Vec)
    ensures FromNat(v.ToNat()) == v
  {
  }

  lemma PlusFacts(n: nat, u: Vec, v: Vec)
    requires u.Fits(n) && v.Fits(n)
    ensures u.Plus(v).Fits(n)
    ensures u.Plus(u.Plus(v)) == v
    ensures u.Plus(v) == v.Plus(u)
  {
  }

  lemma OutsideFits(n: nat, a: Bits, b: Bits, s: nat)
    requires Degree(n) && s + n <= Window(n) <= |a| && |b| >= n
    ensures Outside(n, a, b, s).Fits(n)
  {
    RaiseLower(n, ONE, n);
    RaiseLower(n, ONE, n + s + n);
    hide Raise, Lower, Residue;
    ResidueFits(n, a, 0, s, Start(n));
    ResidueFits(n, a, s + n, Window(n), Raise(n, ONE, n + s + n));
  }

  /** A power-of-two stride is conflict-free: whatever the other address bits and the index are, the n bits
      from s name the 2^n banks one-to-one and onto. */
  lemma ConflictFree(n: nat, a: Bits, b: Bits, s: nat, bank: nat) returns (w: Bits)
    requires Degree(n) && s + n <= Window(n) && |a| == 64 && |b| == 32
    requires bank < Banks(n)
    ensures |w| == n && IpolyHash(WithWindow(n, a, s, w), b, Banks(n)) == Some(bank)
    ensures forall w': Bits :: |w'| == n && IpolyHash(WithWindow(n, a, s, w'), b, Banks(n)) == Some(bank) ==> w' == w
  {
    hide Hash, Low, Outside, Raise, Lower, FromNat, Vec.Plus, Vec.ToNat, Vec.Fits, WithWindow, FromLow;
    var t, rest := FromNat(bank), Outside(n, a, b, s);
    NatRoundTrip(n, bank);
    OutsideFits(n, a, b, s);
    PlusFacts(n, rest, t);
    RaiseLower(n, rest.Plus(t), n + s);
    w := FromLow(n, Lower(n, rest.Plus(t), n + s));
    HashOfWindow(n, a, b, s, w);
    forall w': Bits | |w'| == n && IpolyHash(WithWindow(n, a, s, w'), b, Banks(n)) == Some(bank)
      ensures w' == w
    {
      var v := Low(n, w');
      HashOfWindow(n, a, b, s, w');
      VecRoundTrip(Hash(n, WithWindow(n, a, s, w'), b));
      LowInjective(n, w');
      RaiseLower(n, v, n + s);
      PlusFacts(n, rest, Raise(n, v, n + s));
    }
  }

  // Windows anywhere in the address -------------------------------------------------------------------

  /** The hash of an address whose lowest n bits are the index, padded by whatever b has above them. */
  function AddressHash(n: nat, b: Bits, c: Bits): Option<nat>
    requires Degree(n) && |b| == 32 && |c| == n + 64
  {
    IpolyHash(c[n..], c[..n] + b[n..], Banks(n))
  }

  /** The whole address is one polynomial: bit p stands for x^p. */
  lemma HashOfAddress(n: nat, b: Bits, c: Bits)
    requires Degree(n) && |b| == 32 && |c| == n + 64
    ensures Hash(n, c[n..], c[..n] + b[n..]) == Residue(n, c, 0, n + Window(n), ONE)
  {
    hide TimesX, Hash, Vec.Plus, Residue;
    var a, i, W := c[n..], c[..n] + b[n..], Window(n);
    HashIsResidue(n, a, i);
    ResidueSplit(n, c, 0, n, n + W, 0);
    assert c[0..n] == c[..n][0..n] && c[n..n + W] == a[0..W];
    ResidueSame(n, c, c[..n], 0, 0, n, ONE);
    ResidueOfWindow(n, c[..n]);
    LowOfPrefix(n, c[..n], i);
    ResidueSame(n, c, a, n, 0, W, Start(n));
    PlusCommutes(Residue(n, a, 0, W, Start(n)), Low(n, i));
  }

  lemma LowOfPrefix(n: nat, i: Bits, j: Bits)
    requires Degree(n) && |i| == n && n <= |j| && j[..n] == i
    ensures Low(n, i) == Low(n, j)
  {
    assert forall m :: 0 <= m < n ==> j[m] == j[..n][m] == i[m];
  }

  lemma PlusCommutes(u: Vec, v: Vec)
    ensures u.Plus(v) == v.Plus(u)
  {
  }

  /** What the bits outside the window contribute. */
  function Around(n: nat, c: Bits, p: nat): Vec
    requires Degree(n) && p <= Window(n) && n + Window(n) <= |c|
  {
    Residue(n, c, 0, p, ONE).Plus(Residue(n, c, p + n, n + Window(n), Raise(n, ONE, p + n)))
  }

  lemma ResidueOfAddress(n: nat, c: Bits, p: nat, w: Bits)
    requires Degree(n) && p <= Window(n) && n + Window(n) <= |c| && |w| == n
    ensures Residue(n, WithWindow(n, c, p, w), 0, n + Window(n), ONE) == Around(n, c, p).Plus(Raise(n, Low(n, w), p))
  {
    hide TimesX, Low, Vec.Plus, Residue;
    var c', V := WithWindow(n, c, p, w), n + Window(n);
    ResidueSplit(n, c', 0, p, V, 0);
    ResidueSplit(n, c', p, p + n, V, p);
    WindowSlices(n, c, p, w, V);
    hide Raise;
    ResidueSame(n, c', c, 0, 0, p, ONE);
    ResidueSame(n, c', w, p, 0, n, Raise(n, ONE, p));
    ResidueSame(n, c', c, p + n, p + n, V - (p + n), Raise(n, ONE, p + n));
    ResidueRaisePow(n, w, 0, n, p);
    ResidueOfWindow(n, w);
    PlusSwap(Residue(n, c, 0, p, ONE), Raise(n, Low(n, w), p), Residue(n, c, p + n, V, Raise(n, ONE, p + n)));
  }

  lemma PlusSwap(p: Vec, q: Vec, r: Vec)
    ensures p.Plus(q.Plus(r)) == p.Plus(r).Plus(q)
  {
  }

  lemma AroundFits(n: nat, c: Bits, p: nat)
    requires Degree(n) && p <= Window(n) && n + Window(n) <= |c|
    ensures Around(n, c, p).Fits(n)
  {
    RaiseLower(n, ONE, p + n);
    hide Raise, Lower, Residue;
    ResidueFits(n, c, 0, p, ONE);
    ResidueFits(n, c, p + n, n + Window(n), Raise(n, ONE, p + n));
  }

  /** The same for n bits from any position p of the address, be they all of the index, some of it and some
      above it, or all above it: as long as they end inside the hashed range, they name the banks one-to-one
      and onto. */
  lemma AddressConflictFree(n: nat, b: Bits, c: Bits, p: nat, bank: nat) returns (w: Bits)
    requires Degree(n) && |b| == 32 && |c| == n + 64 && p <= Window(n) && bank < Banks(n)
    ensures |w| == n && AddressHash(n, b, WithWindow(n, c, p, w)) == Some(bank)
    ensures forall w': Bits :: |w'| == n && AddressHash(n, b, WithWindow(n, c, p, w')) == Some(bank) ==> w' == w
  {
    hide Hash, Low, Around, Raise, Lower, FromNat, Vec.Plus, Vec.ToNat, Vec.Fits, WithWindow, FromLow, Residue;
    var t, rest := FromNat(bank), Around(n, c, p);
    NatRoundTrip(n, bank);
    AroundFits(n, c, p);
    PlusFacts(n, rest, t);
    RaiseLower(n, rest.Plus(t), p);
    w := FromLow(n, Lower(n, rest.Plus(t), p));
    HashOfAddress(n, b, WithWindow(n, c, p, w));
    ResidueOfAddress(n, c, p, w);
    forall w': Bits | |w'| == n && AddressHash(n, b, WithWindow(n, c, p, w')) == Some(bank)
      ensures w' == w
    {
      var v := Low(n, w');
      HashOfAddress(n, b, WithWindow(n, c, p, w'));
      ResidueOfAddress(n, c, p, w');
      VecRoundTrip(Residue(n, WithWindow(n, c, p, w'), 0, n + Window(n), ONE));
      LowInjective(n, w');
      RaiseLower(n, v, p);
      PlusFacts(n, rest, Raise(n, v, p));
    }
  }

  /** Bits above the hashed range are not read. */
  lemma HashedRange(n: nat, b: Bits, c: Bits, d: Bits)
    requires Degree(n) && |b| == 32 && |c| == |d| == n + 64 && c[..n + Window(n)] == d[..n + Window(n)]
    ensures AddressHash(n, b, c) == AddressHash(n, b, d)
  {
    hide Hash, Residue;
    HashOfAddress(n, b, c);
    HashOfAddress(n, b, d);
    assert c[0..n + Window(n)] == d[0..n + Window(n)];
    ResidueSame(n, c, d, 0, 0, n + Window(n), ONE);
  }

  /** That is all: n bits that reach past the hashed range miss a bank, so a stride that varies just them has
      conflicts, whatever the other bits are. */
  lemma PastTheRange(n: nat, b: Bits, c: Bits, p: nat) returns (bank: nat)
    requires Degree(n) && |b| == 32 && |c| == n + 64 && Window(n) < p <= 64
    ensures bank < Banks(n)
    ensures forall w: Bits :: |w| == n ==> AddressHash(n, b, WithWindow(n, c, p, w)) != Some(bank)
  {
    hide AddressHash;
    var W := Window(n);
    var flipped := c[W := !c[W]];
    bank := SomeBank(n, b, flipped);
    var u := AddressConflictFree(n, b, c, W, bank);
    SameWindow(n, b, c, flipped);
    forall w: Bits | |w| == n
      ensures AddressHash(n, b, WithWindow(n, c, p, w)) != Some(bank)
    {
      var d := WithWindow(n, c, p, w);
      assert d[..W] == c[..W] && d[W] == c[W];
      SameWindow(n, b, c, d);
      assert d[W..W + n][0] != flipped[W..W + n][0];
    }
  }

  lemma SomeBank(n: nat, b: Bits, c: Bits) returns (bank: nat)
    requires Degree(n) && |b| == 32 && |c| == n + 64
    ensures bank < Banks(n) && AddressHash(n, b, c) == Some(bank)
  {
    hide Hash, Residue;
    HashOfAddress(n, b, c);
    ResidueFits(n, c, 0, n + Window(n), ONE);
    bank := Residue(n, c, 0, n + Window(n), ONE).ToNat();
  }

  /** An address that agrees with c below the last window is c with its own bits there, for the hash. */
  lemma SameWindow(n: nat, b: Bits, c: Bits, d: Bits)
    requires Degree(n) && |b| == 32 && |c| == |d| == n + 64 && c[..Window(n)] == d[..Window(n)]
    ensures AddressHash(n, b, d) == AddressHash(n, b, WithWindow(n, c, Window(n), d[Window(n)..Window(n) + n]))
  {
    var W := Window(n);
    var e := WithWindow(n, c, W, d[W..W + n]);
    assert e[..n + W] == c[..W] + d[W..W + n] == d[..n + W];
    HashedRange(n, b, d, e);
  }
}
