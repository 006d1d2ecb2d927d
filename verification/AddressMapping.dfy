/** Address decoding: PIMSimulator/src/AddressMapping.{h,cpp}. */
module AddressMapping {
  import Numbers
  import opened Pow2s

  // Bitwise operators on natural numbers, bit by bit ----------------------------------------------------

  function Xor(a: nat, b: nat): nat {
    if a == 0 && b == 0 then 0 else (if a % 2 != b % 2 then 1 else 0) + 2 * Xor(a / 2, b / 2)
  }

  function Or(a: nat, b: nat): nat {
    if a == 0 && b == 0 then 0 else (if a % 2 == 1 || b % 2 == 1 then 1 else 0) + 2 * Or(a / 2, b / 2)
  }

  lemma {:induction false} XorSelf(a: nat)
    ensures Xor(a, a) == 0
  {
    if a > 0 {
      XorSelf(a / 2);
    }
  }

  /** `tempA ^ tempB` in diffBitWidth: clearing the low w bits and xoring leaves just those. */
  lemma {:induction false} XorLow(a: nat, w: nat)
    ensures Xor(a, Shr(a, w) * Pow2(w)) == Low(a, w)
  {
    if w == 0 {
      XorSelf(a);
    } else {
      DoubleProduct(Shr(a / 2, w - 1), Pow2(w - 1));
      XorLow(a / 2, w - 1);
      XorStep(a, Shr(a, w) * Pow2(w), Shr(a / 2, w - 1) * Pow2(w - 1));
    }
  }

  lemma XorStep(a: nat, c: nat, b: nat)
    requires c == 2 * b
    ensures Xor(a, c) == a % 2 + 2 * Xor(a / 2, b)
  {
  }

  /** Or of disjoint fields is their sum. */
  lemma {:induction false} OrDisjoint(a: nat, b: nat, w: nat)
    requires a < Pow2(w)
    ensures Or(a, b * Pow2(w)) == a + b * Pow2(w)
  {
    if w > 0 {
      DoubleProduct(b, Pow2(w - 1));
      OrDisjoint(a / 2, b, w - 1);
    } else {
      OrZero(b);
    }
  }

  lemma {:induction false} OrZero(b: nat)
    ensures Or(0, b) == b
  {
    if b > 0 {
      OrZero(b / 2);
    }
  }

  // Decoding ------------------------------------------------------------------------------------------

  datatype Scheme = Scheme1 | Scheme2 | Scheme3 | Scheme4 | Scheme5 | Scheme6 | Scheme7 | Scheme8

  /** The bit widths AddrMapping derives from the power-of-two memory geometry; `byteOffset + colLow` bits
      lie below one transaction. */
  datatype Widths = Widths(chan: nat, rank: nat, bank: nat, bankgroup: nat, row: nat, colHigh: nat,
                           byteOffset: nat, colLow: nat)
  {
    predicate Valid() { bankgroup <= bank }
    function Offset(): nat { byteOffset + colLow }
    function Total(): nat { chan + rank + bank + row + colHigh + Offset() }
  }

  datatype Location = Location(chan: nat, rank: nat, bank: nat, row: nat, col: nat)
  {
    predicate InRange(w: Widths) {
      && chan < Pow2(w.chan) && rank < Pow2(w.rank) && bank < Pow2(w.bank)
      && row < Pow2(w.row) && col < Pow2(w.colHigh)
    }
  }

  /** `diffBitWidth`: takes the low w bits off the address and returns them. */
  method DiffBitWidth(physicalAddress: nat, w: nat) returns (rest: nat, field: nat)
    ensures rest == Shr(physicalAddress, w)
    ensures field == Low(physicalAddress, w)
    ensures field < Pow2(w) && physicalAddress == rest * Pow2(w) + field
  {
    var tempA := physicalAddress;
    rest := Shr(physicalAddress, w);
    var tempB := rest * Pow2(w);
    field := Xor(tempA, tempB);
    XorLow(physicalAddress, w);
    Split(physicalAddress, w);
  }

  /** One field of an address, and the mixed-radix number a list of fields spells, least significant first. */
  datatype Field = Field(width: nat, value: nat) {
    predicate InRange() { value < Pow2(width) }
  }

  datatype Fields = End | Cons(head: Field, tail: Fields) {
    function Value(): nat {
      if End? then 0 else head.value + Pow2(head.width) * tail.Value()
    }

    function Width(): nat {
      if End? then 0 else head.width + tail.Width()
    }

    predicate InRange() {
      Cons? ==> head.InRange() && tail.InRange()
    }

    predicate SameWidths(that: Fields) {
      if End? then that.End? else that.Cons? && head.width == that.head.width && tail.SameWidths(that.tail)
    }
  }

  /** The order in which each scheme lays the five numbers of a location into an address. */
  function Layout(scheme: Scheme, w: Widths, l: Location): Fields {
    var chan, rank := Field(w.chan, l.chan), Field(w.rank, l.rank);
    var bank, row, col := Field(w.bank, l.bank), Field(w.row, l.row), Field(w.colHigh, l.col);
    match scheme
    case Scheme1 => Five(bank, col, row, rank, chan)
    case Scheme2 => Five(rank, bank, col, row, chan)
    case Scheme3 => Five(row, col, bank, rank, chan)
    case Scheme4 => Five(col, row, bank, rank, chan)
    case Scheme5 => Five(bank, rank, col, row, chan)
    case Scheme6 => Five(col, rank, bank, row, chan)
    case Scheme7 => Five(chan, bank, rank, col, row)
    case Scheme8 => Five(chan, bank, col, row, rank)
  }

  function Five(f0: Field, f1: Field, f2: Field, f3: Field, f4: Field): Fields {
    Cons(f0, Cons(f1, Cons(f2, Cons(f3, Cons(f4, End)))))
  }

  lemma FiveFacts(f0: Field, f1: Field, f2: Field, f3: Field, f4: Field)
    ensures var fs := Five(f0, f1, f2, f3, f4);
            && fs.Width() == f0.width + f1.width + f2.width + f3.width + f4.width
            && (fs.InRange() <==> f0.InRange() && f1.InRange() && f2.InRange() && f3.InRange() && f4.InRange())
  {
    hide Pow2;
    ConsFacts(f4, End);
    ConsFacts(f3, Cons(f4, End));
    ConsFacts(f2, Cons(f3, Cons(f4, End)));
    ConsFacts(f1, Cons(f2, Cons(f3, Cons(f4, End))));
    ConsFacts(f0, Cons(f1, Cons(f2, Cons(f3, Cons(f4, End)))));
  }

  lemma ConsFacts(f: Field, fs: Fields)
    ensures Cons(f, fs).Width() == f.width + fs.Width()
    ensures Cons(f, fs).InRange() <==> f.InRange() && fs.InRange()
    ensures End.Width() == 0 && End.InRange()
  {
    hide Pow2;
  }

  lemma LayoutFacts(scheme: Scheme, w: Widths, l: Location)
    ensures Layout(scheme, w, l).Width() == w.Total() - w.Offset()
    ensures l.InRange(w) ==> Layout(scheme, w, l).InRange()
  {
    hide Five, Pow2;
    var chan, rank := Field(w.chan, l.chan), Field(w.rank, l.rank);
    var bank, row, col := Field(w.bank, l.bank), Field(w.row, l.row), Field(w.colHigh, l.col);
    match scheme
    case Scheme1 => FiveFacts(bank, col, row, rank, chan);
    case Scheme2 => FiveFacts(rank, bank, col, row, chan);
    case Scheme3 => FiveFacts(row, col, bank, rank, chan);
    case Scheme4 => FiveFacts(col, row, bank, rank, chan);
    case Scheme5 => FiveFacts(bank, rank, col, row, chan);
    case Scheme6 => FiveFacts(col, rank, bank, row, chan);
    case Scheme7 => FiveFacts(chan, bank, rank, col, row);
    case Scheme8 => FiveFacts(chan, bank, col, row, rank);
  }

  /** l is what the address decodes to: in-range numbers that spell the address bits above one transaction
      and below the memory size. */
  ghost predicate IsDecoding(scheme: Scheme, w: Widths, address: nat, l: Location) {
    && l.InRange(w)
    && Low(Shr(address, w.Offset()), w.Total() - w.Offset()) == Layout(scheme, w, l).Value()
  }

  /** The address of a location. */
  function Encode(scheme: Scheme, w: Widths, l: Location): nat {
    Layout(scheme, w, l).Value() * Pow2(w.Offset())
  }

  lemma {:induction false} ValueBelow(fs: Fields)
    requires fs.InRange()
    ensures fs.Value() < Pow2(fs.Width())
  {
    if fs.Cons? {
      ValueBelow(fs.tail);
      Pow2Add(fs.head.width, fs.tail.Width());
      NextDigit(fs.head.value, Pow2(fs.head.width), fs.tail.Value(), Pow2(fs.tail.Width()));
    }
  }

  lemma NextDigit(v: nat, p: nat, c: nat, q: nat)
    requires v < p && c < q
    ensures v + p * c < p * q
  {
    MulMono(c + 1, q, p);
  }

  lemma {:induction false} ValueInjective(fs: Fields, gs: Fields)
    requires fs.InRange() && gs.InRange() && fs.SameWidths(gs)
    requires fs.Value() == gs.Value()
    ensures fs == gs
  {
    if fs.Cons? {
      HeadAndTail(fs);
      HeadAndTail(gs);
      hide Pow2, Fields.Value;
      ValueInjective(fs.tail, gs.tail);
    }
  }

  lemma HeadAndTail(fs: Fields)
    requires fs.Cons? && fs.head.InRange()
    ensures Shr(fs.Value(), fs.head.width) == fs.tail.Value()
    ensures Low(fs.Value(), fs.head.width) == fs.head.value
  {
    hide Pow2;
    SplitUnique(fs.Value(), fs.head.width, fs.tail.Value(), fs.head.value);
  }

  /** Decoding has one answer. */
  lemma DecodingUnique(scheme: Scheme, w: Widths, address: nat, k: Location, l: Location)
    requires IsDecoding(scheme, w, address, k) && IsDecoding(scheme, w, address, l)
    ensures k == l
  {
    LayoutFacts(scheme, w, k);
    LayoutFacts(scheme, w, l);
    LayoutWidths(scheme, w, k, l);
    hide Fields.Value, Pow2;
    ValueInjective(Layout(scheme, w, k), Layout(scheme, w, l));
  }

  lemma LayoutWidths(scheme: Scheme, w: Widths, k: Location, l: Location)
    ensures Layout(scheme, w, k).SameWidths(Layout(scheme, w, l))
  {
    var fs, gs := Layout(scheme, w, k), Layout(scheme, w, l);
    assert fs.tail.tail.tail.SameWidths(gs.tail.tail.tail);
  }

  /** Every in-range location has an aligned address inside the memory that decodes to it. */
  lemma EncodeThenDecode(scheme: Scheme, w: Widths, l: Location)
    requires l.InRange(w)
    ensures Encode(scheme, w, l) < Pow2(w.Total())
    ensures Low(Encode(scheme, w, l), w.Offset()) == 0
    ensures IsDecoding(scheme, w, Encode(scheme, w, l), l)
  {
    hide Layout, Pow2, Low, Shr, Fields.Value, Fields.Width, Fields.InRange;
    LayoutFacts(scheme, w, l);
    EncodedParts(Layout(scheme, w, l), w.Offset());
  }

  lemma EncodedParts(fs: Fields, off: nat)
    requires fs.InRange()
    ensures fs.Value() * Pow2(off) < Pow2(fs.Width() + off)
    ensures Shr(fs.Value() * Pow2(off), off) == fs.Value()
    ensures Low(fs.Value() * Pow2(off), off) == 0
    ensures Low(fs.Value(), fs.Width()) == fs.Value()
  {
    ValueBelow(fs);
    hide Pow2, Fields.Value, Fields.Width;
    var c, S := fs.Value(), fs.Width();
    SplitUnique(c * Pow2(off), off, c, 0);
    SplitUnique(c, S, 0, c);
    Pow2Add(S, off);
    MulStrict(c, Pow2(S), Pow2(off));
  }

  /** ... and an aligned address inside the memory is the address of what it decodes to. */
  lemma DecodeThenEncode(scheme: Scheme, w: Widths, address: nat, l: Location)
    requires address < Pow2(w.Total()) && Low(address, w.Offset()) == 0
    requires IsDecoding(scheme, w, address, l)
    ensures Encode(scheme, w, l) == address
  {
    hide Layout, Fields.Value;
    var a, off, S := Shr(address, w.Offset()), w.Offset(), w.Total() - w.Offset();
    hide Pow2, Shr, Low;
    Split(address, off);
    Pow2Add(S, off);
    MulCancel(a, Pow2(S), Pow2(off));
    SplitUnique(a, S, 0, a);
  }

  /** Five fields read in turn, and what is left above them. */
  lemma FiveSplits(a0: nat, a1: nat, a2: nat, a3: nat, a4: nat, a5: nat,
                   f0: Field, f1: Field, f2: Field, f3: Field, f4: Field)
    requires Piece(a0, a1, f0) && Piece(a1, a2, f1) && Piece(a2, a3, f2) && Piece(a3, a4, f3) && Piece(a4, a5, f4)
    ensures var fs := Five(f0, f1, f2, f3, f4);
            Low(a0, fs.Width()) == fs.Value()
  {
    hide Pow2, Low, Piece, Fields.Value, Fields.Width;
    EndFacts(a5);
    LowOfPiece(a4, a5, f4, End);
    LowOfPiece(a3, a4, f3, Cons(f4, End));
    LowOfPiece(a2, a3, f2, Cons(f3, Cons(f4, End)));
    LowOfPiece(a1, a2, f1, Cons(f2, Cons(f3, Cons(f4, End))));
    LowOfPiece(a0, a1, f0, Cons(f1, Cons(f2, Cons(f3, Cons(f4, End)))));
  }

  lemma EndFacts(a: nat)
    ensures Low(a, End.Width()) == End.Value()
  {
  }

  predicate Piece(a: nat, rest: nat, f: Field) {
    a == rest * Pow2(f.width) + f.value && f.InRange()
  }

  lemma LowOfPiece(a: nat, rest: nat, f: Field, fs: Fields)
    requires Piece(a, rest, f) && Low(rest, fs.Width()) == fs.Value()
    ensures Low(a, Cons(f, fs).Width()) == Cons(f, fs).Value()
  {
    hide Pow2, Low, Shr;
    var k := fs.Width();
    var p, h, l := Pow2(f.width), Shr(rest, k), Low(rest, k);
    Split(rest, k);
    Pow2Add(f.width, k);
    NextDigit(f.value, p, l, Pow2(k));
    Regroup(rest, h, Pow2(k), l, p);
    SplitUnique(a, f.width + k, h, f.value + p * l);
  }

  lemma Regroup(rest: int, h: int, q: int, l: int, p: int)
    requires rest == h * q + l
    ensures rest * p == h * (p * q) + p * l
  {
    MulEq(rest, h * q + l, p);
  }

  /** `addressMapping`, one field after another off the bottom of the address. */
  method Decode(scheme: Scheme, w: Widths, physicalAddress: nat) returns (l: Location)
    requires w.Valid()
    ensures IsDecoding(scheme, w, physicalAddress, l)
  {
    hide Pow2, Shr, Low, Fields.Value, Fields.Width, Five;
    var a := ShiftOut(physicalAddress, w);
    match scheme
    case Scheme1 =>
      var a1, bank := DiffBitWidth(a, w.bank);
      var a2, col := DiffBitWidth(a1, w.colHigh);
      var a3, row := DiffBitWidth(a2, w.row);
      var a4, rank := DiffBitWidth(a3, w.rank);
      var a5, chan := DiffBitWidth(a4, w.chan);
      l := Location(chan, rank, bank, row, col);
      FiveSplits(a, a1, a2, a3, a4, a5, Field(w.bank, bank), Field(w.colHigh, col), Field(w.row, row),
                 Field(w.rank, rank), Field(w.chan, chan));
      LayoutFacts(scheme, w, l);
    case Scheme2 =>
      var a1, rank := DiffBitWidth(a, w.rank);
      var a2, bank := DiffBitWidth(a1, w.bank);
      var a3, col := DiffBitWidth(a2, w.colHigh);
      var a4, row := DiffBitWidth(a3, w.row);
      var a5, chan := DiffBitWidth(a4, w.chan);
      l := Location(chan, rank, bank, row, col);
      FiveSplits(a, a1, a2, a3, a4, a5, Field(w.rank, rank), Field(w.bank, bank), Field(w.colHigh, col),
                 Field(w.row, row), Field(w.chan, chan));
      LayoutFacts(scheme, w, l);
    case Scheme3 =>
      var a1, row := DiffBitWidth(a, w.row);
      var a2, col := DiffBitWidth(a1, w.colHigh);
      var a3, bank := DiffBitWidth(a2, w.bank);
      var a4, rank := DiffBitWidth(a3, w.rank);
      var a5, chan := DiffBitWidth(a4, w.chan);
      l := Location(chan, rank, bank, row, col);
      FiveSplits(a, a1, a2, a3, a4, a5, Field(w.row, row), Field(w.colHigh, col), Field(w.bank, bank),
                 Field(w.rank, rank), Field(w.chan, chan));
      LayoutFacts(scheme, w, l);
    case Scheme4 =>
      var a1, col := DiffBitWidth(a, w.colHigh);
      var a2, row := DiffBitWidth(a1, w.row);
      var a3, bank := DiffBitWidth(a2, w.bank);
      var a4, rank := DiffBitWidth(a3, w.rank);
      var a5, chan := DiffBitWidth(a4, w.chan);
      l := Location(chan, rank, bank, row, col);
      FiveSplits(a, a1, a2, a3, a4, a5, Field(w.colHigh, col), Field(w.row, row), Field(w.bank, bank),
                 Field(w.rank, rank), Field(w.chan, chan));
      LayoutFacts(scheme, w, l);
    case Scheme5 =>
      var a1, bank := DiffBitWidth(a, w.bank);
      var a2, rank := DiffBitWidth(a1, w.rank);
      var a3, col := DiffBitWidth(a2, w.colHigh);
      var a4, row := DiffBitWidth(a3, w.row);
      var a5, chan := DiffBitWidth(a4, w.chan);
      l := Location(chan, rank, bank, row, col);
      FiveSplits(a, a1, a2, a3, a4, a5, Field(w.bank, bank), Field(w.rank, rank), Field(w.colHigh, col),
                 Field(w.row, row), Field(w.chan, chan));
      LayoutFacts(scheme, w, l);
    case Scheme6 =>
      var a1, col := DiffBitWidth(a, w.colHigh);
      var a2, rank := DiffBitWidth(a1, w.rank);
      var a3, bank := DiffBitWidth(a2, w.bank);
      var a4, row := DiffBitWidth(a3, w.row);
      var a5, chan := DiffBitWidth(a4, w.chan);
      l := Location(chan, rank, bank, row, col);
      FiveSplits(a, a1, a2, a3, a4, a5, Field(w.colHigh, col), Field(w.rank, rank), Field(w.bank, bank),
                 Field(w.row, row), Field(w.chan, chan));
      LayoutFacts(scheme, w, l);
    case Scheme7 =>
      var a1, chan := DiffBitWidth(a, w.chan);
      var a2, bank := DiffBitWidth(a1, w.bank);
      var a3, rank := DiffBitWidth(a2, w.rank);
      var a4, col := DiffBitWidth(a3, w.colHigh);
      var a5, row := DiffBitWidth(a4, w.row);
      l := Location(chan, rank, bank, row, col);
      FiveSplits(a, a1, a2, a3, a4, a5, Field(w.chan, chan), Field(w.bank, bank), Field(w.rank, rank),
                 Field(w.colHigh, col), Field(w.row, row));
      LayoutFacts(scheme, w, l);
    case Scheme8 =>
      var a1, chan := DiffBitWidth(a, w.chan);
      var a', low := DiffBitWidth(a1, w.bank - w.bankgroup);
      var a2, group := DiffBitWidth(a', w.bankgroup);
      var bank := Or(low, group * Pow2(w.bank - w.bankgroup));
      RecombineBank(a1, a', a2, low, group, w.bank - w.bankgroup, w.bankgroup);
      var a3, col := DiffBitWidth(a2, w.colHigh);
      var a4, row := DiffBitWidth(a3, w.row);
      var a5, rank := DiffBitWidth(a4, w.rank);
      l := Location(chan, rank, bank, row, col);
      FiveSplits(a, a1, a2, a3, a4, a5, Field(w.chan, chan), Field(w.bank, bank), Field(w.colHigh, col),
                 Field(w.row, row), Field(w.rank, rank));
      LayoutFacts(scheme, w, l);
  }

  /** `physicalAddress >>= byteOffsetWidth; physicalAddress >>= colLowBitWidth`. */
  method ShiftOut(physicalAddress: nat, w: Widths) returns (a: nat)
    ensures a == Shr(physicalAddress, w.Offset())
  {
    ShrShr(physicalAddress, w.byteOffset, w.colLow);
    a := Shr(Shr(physicalAddress, w.byteOffset), w.colLow);
  }

  lemma {:induction false} ShrShr(x: nat, j: nat, k: nat)
    ensures Shr(Shr(x, j), k) == Shr(x, j + k)
  {
    if j > 0 {
      ShrShr(x / 2, j - 1, k);
    }
  }

  /** Scheme 8 reads the bank number in two pieces; put back together they are one field. */
  lemma RecombineBank(a: nat, a': nat, rest: nat, low: nat, group: nat, u: nat, v: nat)
    requires Piece(a, a', Field(u, low)) && Piece(a', rest, Field(v, group))
    ensures Piece(a, rest, Field(u + v, Or(low, group * Pow2(u))))
  {
    hide Pow2;
    OrDisjoint(low, group, u);
    Pow2Add(u, v);
    NextDigit(low, Pow2(u), group, Pow2(v));
    Regroup(a', rest, Pow2(v), group, Pow2(u));
  }

  // The configured geometry ---------------------------------------------------------------------------

  /** `uLog2`: the logarithm rounded up. */
  function Halvings(value: nat): nat {
    if value < 2 then 0 else 1 + Halvings(value / 2)
  }

  function ULog2(value: nat): nat {
    Halvings(value) + if Pow2(Halvings(value)) < value then 1 else 0
  }

  /** The loop of `uLog2`. */
  method CountHalvings(value: nat) returns (logBase2: nat)
    ensures logBase2 == Halvings(value)
  {
    logBase2 := 0;
    var v: nat := value / 2;
    while v > 0
      invariant Halvings(value) == logBase2 + (if v == 0 then 0 else 1 + Halvings(v))
    {
      v := v / 2;
      logBase2 := logBase2 + 1;
    }
  }

  /** What the memory is configured with: bytes of the bus, length of a burst, and the counts. */
  datatype Geometry = Geometry(busBytes: nat, burst: nat, chans: nat, ranks: nat, banks: nat, bankGroups: nat,
                               rows: nat,
                               cols: nat)
  {
    /** Powers of two, no more bank groups than banks, and at least a burst of columns. */
    ghost predicate Valid() {
      && IsPower(busBytes) && IsPower(burst) && IsPower(chans) && IsPower(ranks) && IsPower(banks)
      && IsPower(bankGroups) && IsPower(rows) && IsPower(cols) && bankGroups <= banks && burst <= cols
    }

    /** The widths as `AddrMapping` derives them. */
    ghost function Derived(): Widths
      requires Valid()
    {
      LogOfTransaction(this);
      var colLow := ULog2(busBytes * burst) - ULog2(busBytes);
      Widths(ULog2(chans), ULog2(ranks), ULog2(banks), ULog2(bankGroups), ULog2(rows), ULog2(cols) - colLow,
             ULog2(busBytes), colLow)
    }

    /** Bytes of one transaction, and of the whole memory. */
    function Transaction(): nat { busBytes * burst }
    function Bytes(): nat { chans * ranks * banks * rows * cols * busBytes }
  }

  ghost predicate IsPower(x: nat) {
    exists k: nat :: x == Pow2(k)
  }

  lemma {:induction false} HalvingsOfPower(k: nat)
    ensures Halvings(Pow2(k)) == k && ULog2(Pow2(k)) == k
  {
    if k > 0 {
      HalvingsOfPower(k - 1);
      Pow2Mono(0, k - 1);
    }
  }

  lemma PowerLog(x: nat)
    requires IsPower(x)
    ensures x == Pow2(ULog2(x))
  {
    var k: nat :| x == Pow2(k);
    HalvingsOfPower(k);
  }

  lemma {:induction false} LogMono(j: nat, k: nat)
    requires Pow2(j) <= Pow2(k)
    ensures j <= k
  {
    if k < j {
      Pow2Mono(0, k);
      Pow2Mono(k + 1, j);
    }
  }

  lemma LogOfTransaction(g: Geometry)
    requires g.Valid()
    ensures ULog2(g.busBytes * g.burst) == ULog2(g.busBytes) + ULog2(g.burst)
    ensures ULog2(g.burst) <= ULog2(g.cols) && ULog2(g.bankGroups) <= ULog2(g.banks)
    ensures g.Transaction() == Pow2(ULog2(g.busBytes) + ULog2(g.burst))
  {
    PowerLog(g.busBytes);
    PowerLog(g.burst);
    PowerLog(g.cols);
    PowerLog(g.banks);
    PowerLog(g.bankGroups);
    var i, j := ULog2(g.busBytes), ULog2(g.burst);
    Pow2Add(i, j);
    HalvingsOfPower(i + j);
    LogMono(j, ULog2(g.cols));
    LogMono(ULog2(g.bankGroups), ULog2(g.banks));
  }

  /** The derived widths are those of the configured counts. */
  lemma DerivedWidths(g: Geometry)
    requires g.Valid()
    ensures var w := g.Derived();
            && w.Valid() && Pow2(w.chan) == g.chans && Pow2(w.rank) == g.ranks && Pow2(w.bank) == g.banks
            && Pow2(w.row) == g.rows && Pow2(w.colHigh) * g.burst == g.cols && Pow2(w.Offset()) == g.Transaction()
  {
    LogOfTransaction(g);
    PowerLog(g.chans);
    PowerLog(g.ranks);
    PowerLog(g.banks);
    PowerLog(g.rows);
    PowerLog(g.burst);
    PowerLog(g.cols);
    Pow2Add(ULog2(g.cols) - ULog2(g.burst), ULog2(g.burst));
    hide ULog2, Pow2;
  }

  lemma ProductOfPowers(a: nat, b: nat, c: nat, d: nat, e: nat, f: nat)
    ensures Pow2(a) * Pow2(b) * Pow2(c) * Pow2(d) * Pow2(e) * Pow2(f) == Pow2(a + b + c + d + e + f)
  {
    hide Pow2;
    Pow2Add(a, b);
    Pow2Add(a + b, c);
    Pow2Add(a + b + c, d);
    Pow2Add(a + b + c + d, e);
    Pow2Add(a + b + c + d + e, f);
  }

  lemma DerivedTotal(g: Geometry)
    requires g.Valid()
    ensures Pow2(g.Derived().Total()) == g.Bytes()
  {
    LogOfTransaction(g);
    PowerLog(g.chans);
    PowerLog(g.ranks);
    PowerLog(g.banks);
    PowerLog(g.rows);
    PowerLog(g.cols);
    PowerLog(g.busBytes);
    ProductOfPowers(ULog2(g.chans), ULog2(g.ranks), ULog2(g.banks), ULog2(g.rows), ULog2(g.cols), ULog2(g.busBytes));
    hide ULog2, Pow2;
  }

  /** A location of the configured memory; a column number counts bursts. */
  predicate IsLocation(g: Geometry, l: Location) {
    l.chan < g.chans && l.rank < g.ranks && l.bank < g.banks && l.row < g.rows && l.col * g.burst < g.cols
  }

  /** The bijection, in terms of the configured counts: under each scheme every location has an address inside
      the memory that is aligned to a transaction and decodes to it... */
  lemma LocationHasAddress(g: Geometry, scheme: Scheme, l: Location) returns (address: nat)
    requires g.Valid() && IsLocation(g, l)
    ensures address < g.Bytes() && address % g.Transaction() == 0
    ensures IsDecoding(scheme, g.Derived(), address, l)
  {
    DerivedWidths(g);
    DerivedTotal(g);
    var w := g.Derived();
    address := Encode(scheme, w, l);
    LocationInRange(g, w, l);
    EncodeThenDecode(scheme, w, l);
    LowIsRemainder(address, w.Offset());
    hide *;
  }

  /** ... and every aligned address inside the memory decodes to one location only, whose address it is. */
  lemma AddressHasLocation(g: Geometry, scheme: Scheme, address: nat, l: Location)
    requires g.Valid() && address < g.Bytes() && address % g.Transaction() == 0
    requires IsDecoding(scheme, g.Derived(), address, l)
    ensures IsLocation(g, l) && Encode(scheme, g.Derived(), l) == address
  {
    DerivedWidths(g);
    DerivedTotal(g);
    var w := g.Derived();
    LowIsRemainder(address, w.Offset());
    DecodeThenEncode(scheme, w, address, l);
    assert l.InRange(w);
    hide IsDecoding, Encode, ULog2, Pow2;
    LocationInRange(g, w, l);
  }

  lemma LocationInRange(g: Geometry, w: Widths, l: Location)
    requires Pow2(w.chan) == g.chans && Pow2(w.rank) == g.ranks && Pow2(w.bank) == g.banks && Pow2(w.row) == g.rows
    requires Pow2(w.colHigh) * g.burst == g.cols && g.burst > 0
    ensures IsLocation(g, l) <==> l.InRange(w)
  {
    hide Pow2;
    MulCancel(l.col, Pow2(w.colHigh), g.burst);
  }

  lemma LowIsRemainder(x: nat, k: nat)
    ensures Low(x, k) == x % Pow2(k)
  {
    Split(x, k);
    Numbers.RemainderUnique(x, Pow2(k), Shr(x, k), Low(x, k));
  }
}
