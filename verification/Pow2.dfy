/** Powers of two, shifts and masks, the arithmetic every bit-level model below is written in: `x << k` is
    `x * Pow2(k)`, `x >> k` is `Shr(x, k)`, and `x & ((1 << k) - 1)` is `Low(x, k)`. */
module Pow2s {

  function Pow2(k: nat): (p: nat)
    ensures p > 0
  {
    if k == 0 then 1 else 2 * Pow2(k - 1)
  }

  lemma {:induction false} Pow2Add(a: nat, b: nat)
    ensures Pow2(a + b) == Pow2(a) * Pow2(b)
    decreases a
  {
    if a > 0 {
      Pow2Add(a - 1, b);
      assert Pow2(a + b) == 2 * Pow2(a - 1 + b);
    }
  }

  lemma Pow2Mono(a: nat, b: nat)
    requires a <= b
    ensures Pow2(a) <= Pow2(b)
  {
    Pow2Add(a, b - a);
    MulMono(1, Pow2(b - a), Pow2(a));
  }

  lemma Pow2Values()
    ensures Pow2(1) == 2 && Pow2(2) == 4 && Pow2(3) == 8 && Pow2(4) == 16 && Pow2(5) == 32
    ensures Pow2(6) == 64 && Pow2(9) == 512 && Pow2(10) == 1024 && Pow2(11) == 2048 && Pow2(12) == 4096
    ensures Pow2(13) == 0x2000 && Pow2(20) == 0x10_0000 && Pow2(21) == 0x20_0000 && Pow2(24) == 0x100_0000
    ensures Pow2(32) == 0x1_0000_0000 && Pow2(30) == 0x4000_0000
  {
    Pow2Add(5, 5);
    Pow2Add(10, 10);
    Pow2Add(20, 10);
    assert Pow2(5) == 32;
  }

  lemma MulMono(a: int, b: int, c: int)
    requires a <= b && 0 <= c
    ensures a * c <= b * c
  {
  }

  /** Equal factors give equal products. */
  lemma MulEq(a: int, b: int, c: int)
    requires a == b
    ensures a * c == b * c
  {
  }

  lemma MulStrict(a: int, b: int, c: int)
    requires a < b && 0 < c
    ensures a * c < b * c
  {
  }

  /** An inequality between products may be read off its common positive factor. */
  lemma MulCancel(a: int, b: int, c: int)
    requires 0 < c
    ensures a * c < b * c <==> a < b
    ensures a * c <= b * c <==> a <= b
    ensures a * c == b * c <==> a == b
  {
    if a < b {
      MulStrict(a, b, c);
    } else if b < a {
      MulStrict(b, a, c);
    }
  }

  function Shr(x: nat, k: nat): nat {
    if k == 0 then x else Shr(x / 2, k - 1)
  }

  function Low(x: nat, k: nat): nat {
    if k == 0 then 0 else x % 2 + 2 * Low(x / 2, k - 1)
  }

  /** Shift and mask split a number into its high and low part. */
  lemma {:induction false} Split(x: nat, k: nat)
    ensures x == Shr(x, k) * Pow2(k) + Low(x, k)
    ensures Low(x, k) < Pow2(k)
  {
    if k > 0 {
      Split(x / 2, k - 1);
      DoubleProduct(Shr(x / 2, k - 1), Pow2(k - 1));
    }
  }

  /** ... and the only such split. */
  lemma {:induction false} SplitUnique(x: nat, k: nat, q: nat, r: nat)
    requires x == q * Pow2(k) + r && r < Pow2(k)
    ensures Shr(x, k) == q && Low(x, k) == r
  {
    if k > 0 {
      DoubleProduct(q, Pow2(k - 1));
      HalveSum(x, q * Pow2(k - 1), r);
      SplitUnique(x / 2, k - 1, q, r / 2);
    }
  }

  lemma HalveSum(x: nat, p: int, r: nat)
    requires x == 2 * p + r
    ensures x / 2 == p + r / 2 && x % 2 == r % 2
  {
  }

  lemma DoubleProduct(h: int, p: int)
    ensures h * (2 * p) == 2 * (h * p)
  {
  }

  lemma {:induction false} ShrOnce(x: nat, k: nat)
    ensures Shr(x, k + 1) == Shr(x, k) / 2
  {
    if k > 0 {
      ShrOnce(x / 2, k - 1);
    }
  }
}
