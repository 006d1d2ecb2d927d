/** Small arithmetic that several components share. */
module Numbers {
  import opened Pow2s

  function Max(a: nat, b: nat): nat { if a < b then b else a }
  function Min(a: nat, b: nat): nat { if a < b then a else b }

  /** `ceil_div`: ONNXim/src/Common.cc:267. */
  function CeilDiv(src: nat, div: nat): nat
    requires div > 0
  {
    (src + div - 1) / div
  }

  /** The quotient rounded up is the least count of pieces that covers everything. */
  lemma CeilDivCovers(src: nat, div: nat)
    requires div > 0
    ensures src <= CeilDiv(src, div) * div < src + div
    ensures src > 0 ==> CeilDiv(src, div) > 0
  {
    var q := CeilDiv(src, div);
    assert src + div - 1 == q * div + (src + div - 1) % div;
    if q == 0 {
      assert q * div == 0;
    }
  }

  lemma CeilDivAtMost(src: nat, div: nat, bound: nat)
    requires div > 0
    ensures src <= bound * div <==> CeilDiv(src, div) <= bound
  {
    CeilDivCovers(src, div);
    var q := CeilDiv(src, div);
    if q <= bound {
      MulMono(q, bound, div);
    } else {
      MulMono(bound + 1, q, div);
      Expand(bound, div);
    }
  }

  lemma Expand(a: int, b: int)
    ensures (a + 1) * b == a * b + b
  {
  }

  /** The rounded-up quotient is the only count of periods b that covers a with less than one to spare. */
  lemma CeilDivUnique(a: nat, b: nat, n: nat)
    requires b > 0
    ensures n == CeilDiv(a, b) <==> a <= n * b < a + b
  {
    var q := CeilDiv(a, b);
    assert q * b <= a + b - 1 < q * b + b;
    if a <= n * b < a + b {
      if n < q {
        MulMono(n + 1, q, b);
      } else if n > q {
        MulMono(q + 1, n, b);
      }
    }
  }

  lemma TwiceAtMost(n: nat, q: nat, unit: nat)
    requires n <= q && 2 <= unit
    ensures n + n <= q * unit
  {
    MulMono(2, unit, q);
  }

  /** A remainder is known by its quotient. */
  lemma RemainderUnique(x: nat, n: nat, q: nat, r: nat)
    requires x == q * n + r && r < n
    ensures x % n == r
  {
    var k := x / n;
    assert x == k * n + x % n;
    if k < q {
      MulMono(k + 1, q, n);
      Expand(k, n);
    } else if q < k {
      MulMono(q + 1, k, n);
      Expand(q, n);
    }
  }
}
