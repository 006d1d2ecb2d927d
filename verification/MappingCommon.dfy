/** What both tile searches of ONNXim/src/Mapping.cc share. */
module MappingCommon {
  import opened Numbers
  import opened Pow2s

  /** A mapping, or the program divides by zero. */
  datatype Result<T> = Success(value: T) | DivisionByZero

  /** The bounds that integer division puts on a product. */
  lemma DivAtMost(a: nat, b: nat)
    requires b > 0
    ensures a / b * b <= a < (a / b + 1) * b
  {
  }

  function NatDiv(a: nat, b: nat): nat
    requires b > 0
  {
    a / b
  }

  /** Bytes of two rows: `dim * width * 2`. */
  function Double(dim: nat, width: nat): (d: nat)
    requires dim > 0 && width > 0
    ensures d > 0
  {
    MulStrict(0, dim, width);
    dim * width * 2
  }

  /** `x / dim + (x % dim != 0)`: the blocks of `dim` that x elements take. */
  function Blocks(x: nat, dim: nat): nat
    requires dim > 0
  {
    NatDiv(x, dim) + if x % dim != 0 then 1 else 0
  }

  lemma BlocksIsCeilDiv(x: nat, dim: nat)
    requires dim > 0
    ensures Blocks(x, dim) == CeilDiv(x, dim)
    ensures x > 0 ==> Blocks(x, dim) > 0
  {
    CeilDivCovers(x, dim);
    DivAtMost(x, dim);
    var q := x / dim;
    if x % dim == 0 {
      CeilDivAtMost(x, dim, q);
      if q > 0 {
        CeilDivAtMost(x, dim, q - 1);
        Expand(q - 1, dim);
      }
    } else {
      CeilDivAtMost(x, dim, q + 1);
      CeilDivAtMost(x, dim, q);
    }
  }
}
