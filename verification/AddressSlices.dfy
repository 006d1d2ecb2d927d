/** Which bits of an address each number of its location is. PIMSimulator/src/AddressMapping.cpp:86-194. */
module AddressSlices {
  import opened Pow2s
  import opened AddressMapping

  /** The number is the `width` bits of the address from bit `from` on. */
  predicate IsSlice(address: nat, from: nat, width: nat, value: nat) {
    value == Low(Shr(address, from), width)
  }

  lemma Whole(h: nat, q: nat, p: nat, a: nat, b: nat)
    requires p == a * b
    ensures h * p + q * b == (h * a + q) * b
  {
    assert h * (a * b) == h * a * b;
  }

  /** Bits from n on do not reach below n. */
  lemma LowerBits(h: nat, m: nat, n: nat, k: nat)
    requires k <= n
    ensures Shr(h * Pow2(n) + m, k) == h * Pow2(n - k) + Shr(m, k)
    ensures Low(h * Pow2(n) + m, k) == Low(m, k)
  {
    hide Pow2, Shr, Low;
    Split(m, k);
    Pow2Add(n - k, k);
    Whole(h, Shr(m, k), Pow2(n), Pow2(n - k), Pow2(k));
    SplitUnique(h * Pow2(n) + m, k, h * Pow2(n - k) + Shr(m, k), Low(m, k));
  }

  lemma SliceOfLow(x: nat, n: nat, k: nat, width: nat)
    requires k + width <= n
    ensures Low(Shr(Low(x, n), k), width) == Low(Shr(x, k), width)
  {
    hide Pow2, Shr, Low;
    Split(x, n);
    LowerBits(Shr(x, n), Low(x, n), n, k);
    LowerBits(Shr(x, n), Shr(Low(x, n), k), n - k, width);
  }

  /** The digits of a mixed-radix number with five places are its slices. */
  lemma FiveSlices(f0: Field, f1: Field, f2: Field, f3: Field, f4: Field)
    requires f0.InRange() && f1.InRange() && f2.InRange() && f3.InRange() && f4.InRange()
    ensures var v := Five(f0, f1, f2, f3, f4).Value();
            && IsSlice(v, 0, f0.width, f0.value) && IsSlice(v, f0.width, f1.width, f1.value)
            && IsSlice(v, f0.width + f1.width, f2.width, f2.value)
            && IsSlice(v, f0.width + f1.width + f2.width, f3.width, f3.value)
            && IsSlice(v, f0.width + f1.width + f2.width + f3.width, f4.width, f4.value)
  {
    hide Pow2, Low, Fields.Value;
    var t4 := Cons(f4, End);
    var t3, t2 := Cons(f3, t4), Cons(f2, Cons(f3, t4));
    var t1 := Cons(f1, t2);
    var v := Cons(f0, t1).Value();
    HeadAndTail(Cons(f0, t1));
    HeadAndTail(t1);
    HeadAndTail(t2);
    HeadAndTail(t3);
    HeadAndTail(t4);
    hide Shr;
    ShrNone(v);
    ShrShr(v, f0.width, f1.width);
    ShrShr(v, f0.width + f1.width, f2.width);
    ShrShr(v, f0.width + f1.width + f2.width, f3.width);
  }

  lemma ShrNone(v: nat)
    ensures Shr(v, 0) == v
  {
  }

  /** The slice of the number above one transaction is the slice of the address. */
  lemma SliceAbove(address: nat, w: Widths, k: nat, width: nat, value: nat)
    requires k + width <= w.Total() - w.Offset()
    requires IsSlice(Low(Shr(address, w.Offset()), w.Total() - w.Offset()), k, width, value)
    ensures IsSlice(address, w.Offset() + k, width, value)
  {
    hide Shr, Low;
    SliceOfLow(Shr(address, w.Offset()), w.Total() - w.Offset(), k, width);
    ShrShr(address, w.Offset(), k);
  }

  /** Five slices, one above the other from the end of a transaction on. */
  lemma Above(address: nat, w: Widths, f0: Field, f1: Field, f2: Field, f3: Field, f4: Field)
    requires f0.InRange() && f1.InRange() && f2.InRange() && f3.InRange() && f4.InRange()
    requires f0.width + f1.width + f2.width + f3.width + f4.width == w.Total() - w.Offset()
    requires Low(Shr(address, w.Offset()), w.Total() - w.Offset()) == Five(f0, f1, f2, f3, f4).Value()
    ensures var o := w.Offset();
            && IsSlice(address, o, f0.width, f0.value) && IsSlice(address, o + f0.width, f1.width, f1.value)
            && IsSlice(address, o + f0.width + f1.width, f2.width, f2.value)
            && IsSlice(address, o + f0.width + f1.width + f2.width, f3.width, f3.value)
            && IsSlice(address, o + f0.width + f1.width + f2.width + f3.width, f4.width, f4.value)
  {
    FiveSlices(f0, f1, f2, f3, f4);
    hide IsSlice, Fields.Value, Five, Low, Shr;
    SliceAbove(address, w, 0, f0.width, f0.value);
    SliceAbove(address, w, f0.width, f1.width, f1.value);
    SliceAbove(address, w, f0.width + f1.width, f2.width, f2.value);
    SliceAbove(address, w, f0.width + f1.width + f2.width, f3.width, f3.value);
    SliceAbove(address, w, f0.width + f1.width + f2.width + f3.width, f4.width, f4.value);
  }

  /** Where each number of a location starts: above everything that the scheme lays below it. */
  datatype Starts = Starts(chan: nat, rank: nat, bank: nat, row: nat, col: nat)

  function StartsOf(scheme: Scheme, w: Widths): Starts {
    var o, top := w.Offset(), w.Total() - w.chan;
    match scheme
    case Scheme1 => Starts(top, top - w.rank, o, o + w.bank + w.colHigh, o + w.bank)
    case Scheme2 => Starts(top, o, o + w.rank, top - w.row, o + w.rank + w.bank)
    case Scheme3 => Starts(top, top - w.rank, o + w.row + w.colHigh, o, o + w.row)
    case Scheme4 => Starts(top, top - w.rank, o + w.colHigh + w.row, o + w.colHigh, o)
    case Scheme5 => Starts(top, o + w.bank, o, top - w.row, o + w.bank + w.rank)
    case Scheme6 => Starts(top, o + w.colHigh, o + w.colHigh + w.rank, top - w.row, o)
    case Scheme7 => Starts(o, o + w.chan + w.bank, o + w.chan, w.Total() - w.row, w.Total() - w.row - w.colHigh)
    case Scheme8 => Starts(o, w.Total() - w.rank, o + w.chan, o + w.chan + w.bank + w.colHigh, o + w.chan + w.bank)
  }

  /** Every number of the location that an address decodes to is a slice of its bits, in the place that the scheme gives
      it. */
  lemma NumbersAreSlices(scheme: Scheme, w: Widths, address: nat, l: Location)
    requires IsDecoding(scheme, w, address, l)
    ensures var s := StartsOf(scheme, w);
            && IsSlice(address, s.chan, w.chan, l.chan) && IsSlice(address, s.rank, w.rank, l.rank)
            && IsSlice(address, s.bank, w.bank, l.bank) && IsSlice(address, s.row, w.row, l.row)
            && IsSlice(address, s.col, w.colHigh, l.col)
  {
    hide Five, Pow2, IsSlice, Low, Shr;
    var chan, rank := Field(w.chan, l.chan), Field(w.rank, l.rank);
    var bank, row, col := Field(w.bank, l.bank), Field(w.row, l.row), Field(w.colHigh, l.col);
    match scheme
    case Scheme1 => Above(address, w, bank, col, row, rank, chan);
    case Scheme2 => Above(address, w, rank, bank, col, row, chan);
    case Scheme3 => Above(address, w, row, col, bank, rank, chan);
    case Scheme4 => Above(address, w, col, row, bank, rank, chan);
    case Scheme5 => Above(address, w, bank, rank, col, row, chan);
    case Scheme6 => Above(address, w, col, rank, bank, row, chan);
    case Scheme7 => Above(address, w, chan, bank, rank, col, row);
    case Scheme8 => Above(address, w, chan, bank, col, row, rank);
  }
}
