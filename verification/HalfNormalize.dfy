/** The normalisation loop shared by `*`, `/`, `sqrt` and the widening conversion of half.h. */
module HalfNormalize {
  import opened Pow2s
  import opened HalfSpec
  import opened HalfRounding

  /** The normalisation loop that opens `*`, `/` and `sqrt`: k is how often the caller's exponent changes. */
  method Normalize(a: nat) returns (b: nat, k: nat)
    requires 0 < a < 0x8000
    ensures 0x400 <= b < 0x8000 && (a < INF ==> b < INF)
    ensures a >= 0x400 ==> b == a && k == 0
    ensures 0 < Mag(a) && Mag(b) == Mag(a) * Pow2(k)
    ensures k <= 10 && (k > 0 ==> b < 0x800)
  {
    MagPositive(a);
    Pow2Values();
    b, k := a, 0;
    while b < 0x400
      invariant 0 < b < 0x8000 && (a >= 0x400 ==> b == a && k == 0) && (a < 0x400 ==> b < 0x800)
      invariant k <= 10 && b >= Pow2(k) && (k > 0 ==> b < 0x800)
      invariant Mag(b) == Mag(a) * Pow2(k)
    {
      if k == 10 {
        assert false;
      }
      DoubleLast(Mag(a), k);
      b, k := 2 * b, k + 1;
    }
  }

  lemma {:induction false} MagPositive(a: nat)
    requires a > 0
    ensures Mag(a) > 0
  {
    if a >= 0x800 {
      MagPositive(a - 0x400);
    }
  }

  lemma NormalParts(b: nat)
    requires 0x400 <= b < INF
    ensures 1 <= b / 0x400 <= 30
    ensures 0x400 <= 0x400 + b % 0x400 < 0x800
    ensures Mag(b) == (0x400 + b % 0x400) * Pow2(b / 0x400 - 1)
  {
    MagIsMantissaTimesExponent(b);
  }

  lemma PowShift(x: int, a: nat, b: nat)
    ensures x * Pow2(a) * Pow2(b) == x * Pow2(a + b)
  {
    Pow2Add(a, b);
    Associate(x, Pow2(a), Pow2(b));
  }
}
