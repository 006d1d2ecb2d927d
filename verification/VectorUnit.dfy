/** The adder tree of the vector unit: ONNXim/src/Core.cc:449-469. */
module VectorUnit {
  import opened Numbers

  /** The passes of a unit that adds `unit` numbers at a time over n numbers. The source does not
      return for any other arguments: see ReturnsIff. */
  function AddTreeIterations(unit: nat, n: nat): (r: nat)
    requires unit >= 2 || n <= unit
    decreases n
  {
    if n <= unit then 1
    else
      Shrinks(unit, n);
      CeilDiv(n, unit) + AddTreeIterations(unit, CeilDiv(n, unit))
  }

  /** The depth of the tree. */
  function Levels(unit: nat, n: nat): nat
    requires unit >= 2 || n <= unit
    decreases n
  {
    if n <= unit then 1
    else
      Shrinks(unit, n);
      1 + Levels(unit, CeilDiv(n, unit))
  }

  lemma Shrinks(unit: nat, n: nat)
    requires 2 <= unit < n
    ensures 1 <= CeilDiv(n, unit) < n
  {
    CeilDivCovers(n, unit);
    if CeilDiv(n, unit) >= n {
      TwiceAtMost(n, CeilDiv(n, unit), unit);
    }
  }

  /** One pass turns `unit` numbers into one, so it takes away unit - 1 of them. The tree takes enough passes
      to leave a single sum, and wastes at most one pass for each of its levels. */
  lemma {:induction false} EnoughPasses(unit: nat, n: nat)
    requires unit >= 2 && n >= 1
    ensures n - 1 <= AddTreeIterations(unit, n) * (unit - 1) <= n - 1 + Levels(unit, n) * (unit - 1)
    decreases n
  {
    if n > unit {
      var m := CeilDiv(n, unit);
      Shrinks(unit, n);
      EnoughPasses(unit, m);
      CeilDivCovers(n, unit);
      Spread(m, AddTreeIterations(unit, m), unit);
      Spread(1, Levels(unit, m), unit);
    } else {
      One(unit, n);
    }
  }

  lemma One(unit: nat, n: nat)
    requires 1 <= n <= unit
    ensures n - 1 <= 1 * (unit - 1) <= n - 1 + 1 * (unit - 1)
  {
  }

  lemma Spread(m: nat, a: nat, unit: nat)
    requires unit >= 1
    ensures (m + a) * (unit - 1) == m * unit - m + a * (unit - 1)
  {
  }

  /** The recursion comes to an end within this many calls; a unit of zero divides by zero. */
  predicate Returns(unit: nat, n: nat, calls: nat)
    decreases calls
  {
    n <= unit || (unit > 0 && calls > 0 && Returns(unit, CeilDiv(n, unit), calls - 1))
  }

  lemma {:induction false} ReturnsInTime(unit: nat, n: nat)
    requires unit >= 2
    ensures Returns(unit, n, n)
    decreases n
  {
    if n > unit {
      Shrinks(unit, n);
      ReturnsInTime(unit, CeilDiv(n, unit));
      MoreCalls(unit, CeilDiv(n, unit), CeilDiv(n, unit), n - 1);
    }
  }

  lemma AtOnce(unit: nat, n: nat)
    requires n <= unit
    ensures EverReturns(unit, n)
  {
    var calls := 0;
    assert Returns(unit, n, calls);
  }

  lemma {:induction false} MoreCalls(unit: nat, n: nat, calls: nat, more: nat)
    requires Returns(unit, n, calls) && calls <= more
    ensures Returns(unit, n, more)
    decreases calls
  {
    if n > unit {
      MoreCalls(unit, CeilDiv(n, unit), calls - 1, more - 1);
    }
  }

  lemma {:induction false} Stalls(n: nat, calls: nat)
    requires n > 1
    ensures !Returns(1, n, calls)
    decreases calls
  {
    if calls > 0 {
      Stalls(n, calls - 1);
    }
  }

  ghost predicate EverReturns(unit: nat, n: nat) {
    exists calls: nat :: Returns(unit, n, calls)
  }

  /** The source's recursion ends exactly for units of at least two numbers, and for nothing to add up. */
  lemma ReturnsIff(unit: nat, n: nat)
    ensures EverReturns(unit, n) <==> unit >= 2 || n <= unit
  {
    if unit >= 2 {
      ReturnsInTime(unit, n);
    } else if n <= unit {
      AtOnce(unit, n);
    } else {
      forall calls: nat
        ensures !Returns(unit, n, calls)
      {
        if unit == 1 {
          Stalls(n, calls);
        }
      }
    }
  }
}
