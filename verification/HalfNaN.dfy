/** The NaN results of PIMSimulator/lib/half.h:715-732, 764-769; which NaN comes back is not part of any claim. */
module HalfNaN {
  import opened HalfSpec

  /** `signal`: the first NaN operand, made quiet (bit 9 set). */
  function Quiet(x: Half, y: Half): (r: Half)
    requires IsNaN(x) || IsNaN(y)
    ensures IsNaN(r)
  {
    var nan := if IsNaN(x) then x else y;
    var a := AbsBits(nan);
    SignAndMagnitude(Sign(nan), SetBit9(a));
    Sign(nan) + SetBit9(a)
  }

  lemma SignAndMagnitude(sign: int, a: nat)
    requires (sign == 0 || sign == 0x8000) && a < 0x8000
    ensures AbsBits(sign + a) == a
  {
  }

  function SetBit9(a: nat): (r: nat)
    requires a < 0x8000
    ensures a <= r < 0x8000
  {
    if a % 0x400 >= 0x200 then a else a + 0x200
  }

  /** `invalid`. */
  const INVALID: Half := 0x7FFF
}
