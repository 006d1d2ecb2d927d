/** The program of one tile of a matrix product, and when it settles. ONNXim/src/operations/GemmWS.cc:91-293. */
module GemmProgram {
  import opened Systolic
  import opened TileSafety

  const SPAD_BASE := 0x1000_0000

  /** A tile of `inN` by `inM` outputs that sums over `inC`, at its offsets in the whole product; rows and columns are
      cut into pieces of `loop`, the height of the array. The addresses in memory that a load or a store asks for are
      given. */
  datatype Product = Product(loop: nat, inN: nat, inM: nat, inC: nat, nOffset: nat, mOffset: nat, cOffset: nat,
                             totalN: nat, totalM: nat, totalC: nat, precision: nat, hasBias: bool, accum: bool,
                             biasFrom: nat -> seq<nat>, weightsFrom: nat -> seq<nat>, actsFrom: nat -> seq<nat>,
                             outTo: (nat, nat) -> seq<nat>)
  {
    /** The sums are complete with this tile. */
    predicate IsLast() { cOffset + inC >= totalC }

    predicate LoadsBias() { hasBias && !accum }

    /** The piece of rows or columns that starts here is not past the end. */
    predicate HasM(m: nat) { m < inM && mOffset + m < totalM }
    predicate HasN(n: nat) { n < inN && nOffset + n < totalN }

    function Depth(): nat { if cOffset + inC > totalC then (if totalC > cOffset then totalC - cOffset else 0) else inC }
    function Width(n: nat): nat {
      if nOffset + n + loop > totalN && totalN > nOffset + n then totalN - nOffset - n else loop
    }

    function ActAt(n: nat): nat { SPAD_BASE + n * inC * precision }
    function WeightAt(m: nat): nat { SPAD_BASE + inN * inC * precision + m * inC * precision }
    function OutAt(m: nat, n: nat): nat { ACCUM_SPAD_BASE + (n * inM + m) * precision }

    function Load(dest: nat, from: seq<nat>): Inst { Inst(MovIn, dest, from, false, 0, 0, |from|, 0, false, false, 0) }

    function Bias(m: nat): Inst { Load(ACCUM_SPAD_BASE + m * precision, biasFrom(m)) }
    function Weights(m: nat): Inst { Load(WeightAt(m), weightsFrom(m)) }
    function Acts(n: nat): Inst { Load(ActAt(n), actsFrom(n)) }

    function Multiply(m: nat, n: nat): Inst {
      Inst(GemmPreload, OutAt(m, n), [ActAt(n), WeightAt(m)], false, 0, 0, Width(n), Width(n), false, false, 0)
    }

    function Store(m: nat, n: nat): Inst {
      Inst(MovOut, OutAt(m, n), outTo(m, n), false, 0, 0, |outTo(m, n)|, 0, false, false, 0)
    }
  }

  // The program ---------------------------------------------------------------------------------------

  function ActLoads(p: Product, n: nat): seq<Inst>
    requires p.loop > 0
    decreases p.inN - n
  {
    if p.HasN(n) then [p.Acts(n)] + ActLoads(p, n + p.loop) else []
  }

  function LoadsAt(p: Product, m: nat): seq<Inst>
    requires p.loop > 0
  {
    (if p.LoadsBias() then [p.Bias(m)] else []) + ([p.Weights(m)] + if m == 0 then ActLoads(p, 0) else [])
  }

  function Loads(p: Product, m: nat): seq<Inst>
    requires p.loop > 0
    decreases p.inM - m
  {
    if p.HasM(m) then LoadsAt(p, m) + Loads(p, m + p.loop) else []
  }

  /** One step of the array for each piece of the depth. */
  function Steps(p: Product, m: nat, n: nat, c: nat): seq<Inst>
    requires p.loop > 0
    decreases p.Depth() - c
  {
    if c < p.Depth() then [p.Multiply(m, n)] + Steps(p, m, n, c + p.loop) else []
  }

  function RowMultiplies(p: Product, m: nat, n: nat): seq<Inst>
    requires p.loop > 0
    decreases p.inN - n
  {
    if p.HasN(n) then Steps(p, m, n, 0) + RowMultiplies(p, m, n + p.loop) else []
  }

  function Multiplies(p: Product, m: nat): seq<Inst>
    requires p.loop > 0
    decreases p.inM - m
  {
    if p.HasM(m) then RowMultiplies(p, m, 0) + Multiplies(p, m + p.loop) else []
  }

  function RowStores(p: Product, m: nat, n: nat): seq<Inst>
    requires p.loop > 0
    decreases p.inN - n
  {
    if p.HasN(n) then [p.Store(m, n)] + RowStores(p, m, n + p.loop) else []
  }

  function Stores(p: Product, m: nat): seq<Inst>
    requires p.loop > 0
    decreases p.inM - m
  {
    if p.HasM(m) then RowStores(p, m, 0) + Stores(p, m + p.loop) else []
  }

  function Program(p: Product): seq<Inst>
    requires p.loop > 0
  {
    Loads(p, 0) + Multiplies(p, 0) + if p.IsLast() then Stores(p, 0) else []
  }

  /** What a tile of the mapping is like: it has a row, a column and some depth; and its operands lie below the
      accumulator's addresses. */
  ghost predicate FromMapping(p: Product) {
    && p.loop > 0 && p.HasM(0) && p.HasN(0) && p.Depth() > 0
    && (forall n :: p.HasN(n) ==> p.ActAt(n) < ACCUM_SPAD_BASE)
    && (forall m :: p.HasM(m) ==> p.WeightAt(m) < ACCUM_SPAD_BASE)
  }

  /** Every load asks for something. */
  ghost predicate Asks(p: Product) {
    && (forall m :: p.HasM(m) ==> |p.biasFrom(m)| >= 1 && |p.weightsFrom(m)| >= 1)
    && (forall n :: p.HasN(n) ==> |p.actsFrom(n)| >= 1)
  }

  // The loops that build it ---------------------------------------------------------------------------

  /** The loads of one row of pieces: its bias, its weights and, with the first row, all activations. */
  method LoadRow(p: Product, m: nat) returns (insts: seq<Inst>)
    requires p.loop > 0
    ensures insts == LoadsAt(p, m)
  {
    hide Product.Bias, Product.Weights, Product.Acts, ActLoads;
    insts := [];
    if p.hasBias && !p.accum {
      insts := [p.Bias(m)];
    }
    insts := insts + [p.Weights(m)];
    insts := LoadActs(p, m, insts);
  }

  /** The inner loop of that, behind what is there. */
  method LoadActs(p: Product, m: nat, before: seq<Inst>) returns (insts: seq<Inst>)
    requires p.loop > 0
    ensures insts == before + if m == 0 then ActLoads(p, 0) else []
  {
    hide Product.Acts;
    insts := before;
    var n := 0;
    while n < p.inN && p.nOffset + n < p.totalN
      invariant m != 0 ==> insts == before
      invariant m == 0 ==> insts + ActLoads(p, n) == before + ActLoads(p, 0)
      decreases p.inN - n
    {
      if m == 0 {
        Onto(insts, [p.Acts(n)], ActLoads(p, n + p.loop));
        insts := insts + [p.Acts(n)];
      }
      n := n + p.loop;
    }
  }

  lemma Onto(a: seq<Inst>, x: seq<Inst>, b: seq<Inst>)
    ensures a + (x + b) == (a + x) + b
  {
  }

  method MoveIn(p: Product) returns (insts: seq<Inst>)
    requires p.loop > 0
    ensures insts == Loads(p, 0)
  {
    hide LoadsAt;
    insts := [];
    var m := 0;
    while m < p.inM && p.mOffset + m < p.totalM
      invariant insts + Loads(p, m) == Loads(p, 0)
      decreases p.inM - m
    {
      var row := LoadRow(p, m);
      Onto(insts, row, Loads(p, m + p.loop));
      insts := insts + row;
      m := m + p.loop;
    }
  }

  method MultiplyPiece(p: Product, m: nat, n: nat) returns (insts: seq<Inst>)
    requires p.loop > 0
    ensures insts == Steps(p, m, n, 0)
  {
    hide Product.Multiply;
    insts := [];
    var c := 0;
    while c < p.Depth()
      invariant insts + Steps(p, m, n, c) == Steps(p, m, n, 0)
      decreases p.Depth() - c
    {
      Onto(insts, [p.Multiply(m, n)], Steps(p, m, n, c + p.loop));
      insts := insts + [p.Multiply(m, n)];
      c := c + p.loop;
    }
  }

  method MultiplyRow(p: Product, m: nat) returns (insts: seq<Inst>)
    requires p.loop > 0
    ensures insts == RowMultiplies(p, m, 0)
  {
    hide Steps;
    insts := [];
    var n := 0;
    while n < p.inN && p.nOffset + n < p.totalN
      invariant insts + RowMultiplies(p, m, n) == RowMultiplies(p, m, 0)
      decreases p.inN - n
    {
      var piece := MultiplyPiece(p, m, n);
      Onto(insts, piece, RowMultiplies(p, m, n + p.loop));
      insts := insts + piece;
      n := n + p.loop;
    }
  }

  method Compute(p: Product) returns (insts: seq<Inst>)
    requires p.loop > 0
    ensures insts == Multiplies(p, 0)
  {
    hide RowMultiplies;
    insts := [];
    var m := 0;
    while m < p.inM && p.mOffset + m < p.totalM
      invariant insts + Multiplies(p, m) == Multiplies(p, 0)
      decreases p.inM - m
    {
      var row := MultiplyRow(p, m);
      Onto(insts, row, Multiplies(p, m + p.loop));
      insts := insts + row;
      m := m + p.loop;
    }
  }

  method StoreRow(p: Product, m: nat) returns (insts: seq<Inst>)
    requires p.loop > 0
    ensures insts == RowStores(p, m, 0)
  {
    hide Product.Store;
    insts := [];
    var n := 0;
    while n < p.inN && p.nOffset + n < p.totalN
      invariant insts + RowStores(p, m, n) == RowStores(p, m, 0)
      decreases p.inN - n
    {
      Onto(insts, [p.Store(m, n)], RowStores(p, m, n + p.loop));
      insts := insts + [p.Store(m, n)];
      n := n + p.loop;
    }
  }

  method MoveOut(p: Product) returns (insts: seq<Inst>)
    requires p.loop > 0
    ensures insts == if p.IsLast() then Stores(p, 0) else []
  {
    hide RowStores;
    insts := [];
    if !(p.cOffset + p.inC >= p.totalC) { return; }
    var m := 0;
    while m < p.inM && p.mOffset + m < p.totalM
      invariant insts + Stores(p, m) == Stores(p, 0)
      decreases p.inM - m
    {
      var row := StoreRow(p, m);
      Onto(insts, row, Stores(p, m + p.loop));
      insts := insts + row;
      m := m + p.loop;
    }
  }

  /** `initialize_instructions`. */
  method InitializeInstructions(p: Product) returns (insts: seq<Inst>)
    requires p.loop > 0
    ensures insts == Program(p)
  {
    insts := MoveIn(p);
    var computes := Compute(p);
    var stores := MoveOut(p);
    insts := insts + computes + stores;
  }

  // What its parts hold -------------------------------------------------------------------------------

  lemma {:induction false} ActsLoad(p: Product, n: nat, x: Inst)
    requires p.loop > 0 && x in ActLoads(p, n)
    ensures x.opcode.MovIn? && (Asks(p) ==> WellFormed(x, true))
    decreases p.inN - n
  {
    if x != p.Acts(n) {
      ActsLoad(p, n + p.loop, x);
    }
  }

  lemma {:induction false} LoadsLoad(p: Product, m: nat, x: Inst)
    requires p.loop > 0 && x in Loads(p, m)
    ensures x.opcode.MovIn? && (Asks(p) ==> WellFormed(x, true))
    decreases p.inM - m
  {
    if x in LoadsAt(p, m) {
      if x in ActLoads(p, 0) {
        ActsLoad(p, 0, x);
      }
    } else {
      LoadsLoad(p, m + p.loop, x);
    }
  }

  lemma {:induction false} StepsMultiply(p: Product, m: nat, n: nat, c: nat, x: Inst)
    requires p.loop > 0 && x in Steps(p, m, n, c)
    ensures x == p.Multiply(m, n)
    decreases p.Depth() - c
  {
    if x != p.Multiply(m, n) {
      StepsMultiply(p, m, n, c + p.loop, x);
    }
  }

  lemma {:induction false} RowMultiplyIs(p: Product, m: nat, n: nat, x: Inst) returns (n': nat)
    requires p.loop > 0 && x in RowMultiplies(p, m, n)
    ensures p.HasN(n') && x == p.Multiply(m, n')
    decreases p.inN - n
  {
    if x in Steps(p, m, n, 0) {
      StepsMultiply(p, m, n, 0, x);
      n' := n;
    } else {
      n' := RowMultiplyIs(p, m, n + p.loop, x);
    }
  }

  lemma {:induction false} MultiplyIs(p: Product, m: nat, x: Inst) returns (m': nat, n': nat)
    requires p.loop > 0 && x in Multiplies(p, m)
    ensures p.HasM(m') && p.HasN(n') && x == p.Multiply(m', n')
    decreases p.inM - m
  {
    if x in RowMultiplies(p, m, 0) {
      m' := m;
      n' := RowMultiplyIs(p, m, 0, x);
    } else {
      m', n' := MultiplyIs(p, m + p.loop, x);
    }
  }

  lemma {:induction false} RowStoresStore(p: Product, m: nat, n: nat, x: Inst)
    requires p.loop > 0 && x in RowStores(p, m, n)
    ensures x.opcode.MovOut? && WellFormed(x, true)
    decreases p.inN - n
  {
    if x != p.Store(m, n) {
      RowStoresStore(p, m, n + p.loop, x);
    }
  }

  lemma {:induction false} StoresStore(p: Product, m: nat, x: Inst)
    requires p.loop > 0 && x in Stores(p, m)
    ensures x.opcode.MovOut? && WellFormed(x, true)
    decreases p.inM - m
  {
    if x in RowStores(p, m, 0) {
      RowStoresStore(p, m, 0, x);
    } else {
      StoresStore(p, m + p.loop, x);
    }
  }

  // What waits for what -------------------------------------------------------------------------------

  lemma MultiplyWaits(p: Product, m: nat, n: nat)
    requires FromMapping(p) && p.HasM(m) && p.HasN(n)
    ensures WaitsFor(p.Multiply(m, n), DestPlace(p.Weights(m))) && WaitsFor(p.Multiply(m, n), DestPlace(p.Acts(n)))
  {
    var i := p.Multiply(m, n);
    assert p.ActAt(n) in i.srcs && p.WeightAt(m) in i.srcs;
    assert p.ActAt(n) < ACCUM_SPAD_BASE && p.WeightAt(m) < ACCUM_SPAD_BASE;
    hide Product.ActAt, Product.WeightAt;
  }

  lemma StoreWaits(p: Product, m: nat, n: nat)
    ensures WaitsFor(p.Store(m, n), DestPlace(p.Multiply(m, n)))
    ensures WaitsFor(p.Store(m, 0), DestPlace(p.Bias(m)))
  {
    assert 0 * p.inM + m == m;
  }

  lemma {:induction false} ActAwaited(p: Product, n: nat, x: Inst) returns (y: Inst)
    requires FromMapping(p) && x in ActLoads(p, n)
    ensures y in RowMultiplies(p, 0, n) && WaitsFor(y, DestPlace(x))
    decreases p.inN - n
  {
    hide WaitsFor, DestPlace;
    if x == p.Acts(n) {
      y := p.Multiply(0, n);
      MultiplyWaits(p, 0, n);
      assert y in Steps(p, 0, n, 0);
    } else {
      y := ActAwaited(p, n + p.loop, x);
    }
  }

  /** A load is awaited by a multiplication or, if it is the bias, by a store of the last tile. */
  lemma {:induction false} LoadAwaited(p: Product, m: nat, x: Inst) returns (y: Inst)
    requires FromMapping(p) && x in Loads(p, m) && (p.IsLast() || !p.LoadsBias())
    ensures y in Multiplies(p, m) || (p.IsLast() && y in Stores(p, m))
    ensures WaitsFor(y, DestPlace(x))
    decreases p.inM - m
  {
    hide WaitsFor, DestPlace;
    if x in LoadsAt(p, m) {
      if p.LoadsBias() && x == p.Bias(m) {
        y := p.Store(m, 0);
        StoreWaits(p, m, 0);
        assert y in RowStores(p, m, 0);
      } else if x == p.Weights(m) {
        y := p.Multiply(m, 0);
        MultiplyWaits(p, m, 0);
        assert y in Steps(p, m, 0, 0);
        assert y in RowMultiplies(p, m, 0);
      } else {
        y := ActAwaited(p, 0, x);
      }
    } else {
      y := LoadAwaited(p, m + p.loop, x);
    }
  }

  lemma {:induction false} RowStored(p: Product, m: nat, n: nat, x: Inst) returns (y: Inst)
    requires p.loop > 0 && x in RowMultiplies(p, m, n)
    ensures y in RowStores(p, m, n) && WaitsFor(y, DestPlace(x))
    decreases p.inN - n
  {
    hide WaitsFor, DestPlace, Steps, Product.Multiply, Product.Store;
    if x in Steps(p, m, n, 0) {
      StepsMultiply(p, m, n, 0, x);
      y := p.Store(m, n);
      StoreWaits(p, m, n);
    } else {
      y := RowStored(p, m, n + p.loop, x);
    }
  }

  lemma {:induction false} MultiplyStored(p: Product, m: nat, x: Inst) returns (y: Inst)
    requires p.loop > 0 && x in Multiplies(p, m)
    ensures y in Stores(p, m) && WaitsFor(y, DestPlace(x))
    decreases p.inM - m
  {
    hide WaitsFor, DestPlace, RowMultiplies, RowStores, Product.HasN;
    if x in RowMultiplies(p, m, 0) {
      y := RowStored(p, m, 0, x);
    } else {
      y := MultiplyStored(p, m + p.loop, x);
    }
  }

  lemma SomeMultiply(p: Product)
    requires FromMapping(p)
    ensures Multiplies(p, 0) != []
  {
    assert p.Multiply(0, 0) in Steps(p, 0, 0, 0);
    assert p.Multiply(0, 0) in RowMultiplies(p, 0, 0);
  }

  // When it settles -----------------------------------------------------------------------------------

  lemma AwaitedLater(a: seq<Inst>, b: seq<Inst>, j: nat, y: Inst)
    requires j < |a| && y in b && WaitsFor(y, DestPlace(a[j]))
    ensures Awaited(a + b, j, |a + b|)
  {
    var m :| 0 <= m < |b| && b[m] == y;
    assert (a + b)[|a| + m] == y && (a + b)[j] == a[j];
  }

  /** A load or a multiplication of the last tile. */
  lemma LastAwaited(p: Product, j: nat)
    requires FromMapping(p) && p.IsLast() && j < |Loads(p, 0)| + |Multiplies(p, 0)|
    ensures Awaited(Program(p), j, |Program(p)|)
  {
    hide WaitsFor, DestPlace, Awaited, Loads, Multiplies, Stores;
    var ls, ms, ss := Loads(p, 0), Multiplies(p, 0), Stores(p, 0);
    if j < |ls| {
      var y := LoadAwaited(p, 0, ls[j]);
      assert ls + (ms + ss) == Program(p);
      AwaitedLater(ls, ms + ss, j, y);
    } else {
      var y := MultiplyStored(p, 0, ms[j - |ls|]);
      AwaitedLater(ls + ms, ss, j, y);
    }
  }

  /** A load of a tile that loads no bias and stores nothing. */
  lemma PlainAwaited(p: Product, j: nat)
    requires FromMapping(p) && !p.IsLast() && !p.LoadsBias() && j < |Loads(p, 0)|
    ensures Awaited(Program(p), j, |Program(p)|)
  {
    hide WaitsFor, DestPlace, Awaited, Loads, Multiplies, Stores;
    var y := LoadAwaited(p, 0, Loads(p, 0)[j]);
    assert Loads(p, 0) + Multiplies(p, 0) == Program(p);
    AwaitedLater(Loads(p, 0), Multiplies(p, 0), j, y);
  }

  lemma ProgramAt(p: Product, j: nat)
    requires p.loop > 0 && j < |Program(p)|
    ensures var ls, ms, x := Loads(p, 0), Multiplies(p, 0), Program(p)[j];
            if j < |ls| then x in ls && x.opcode.MovIn?
            else if j < |ls| + |ms| then x in ms && x.opcode.GemmPreload?
            else p.IsLast() && x.opcode.MovOut?
  {
    hide Loads, Multiplies, Stores;
    var ls, ms, x := Loads(p, 0), Multiplies(p, 0), Program(p)[j];
    if j < |ls| {
      LoadsLoad(p, 0, x);
    } else if j < |ls| + |ms| {
      assert x == ms[j - |ls|];
      var m, n := MultiplyIs(p, 0, x);
    } else {
      assert x == Stores(p, 0)[j - |ls| - |ms|];
      StoresStore(p, 0, x);
    }
  }

  lemma SettlesAt(p: Product, j: nat)
    requires FromMapping(p) && (p.IsLast() || !p.LoadsBias()) && j < |Program(p)| - 1 && Writes(Program(p)[j])
    ensures Awaited(Program(p), j, |Program(p)|) || SameUnit(Program(p)[j], Program(p)[|Program(p)| - 1])
  {
    hide Awaited, Loads, Multiplies, Stores, Program;
    SomeMultiply(p);
    ProgramLength(p);
    ProgramAt(p, j);
    ProgramAt(p, |Program(p)| - 1);
    if p.IsLast() {
      LastAwaited(p, j);
    } else if j < |Loads(p, 0)| {
      PlainAwaited(p, j);
    }
  }

  lemma ProgramLength(p: Product)
    requires p.loop > 0
    ensures |Program(p)| >= |Loads(p, 0)| + |Multiplies(p, 0)|
    ensures !p.IsLast() ==> |Program(p)| == |Loads(p, 0)| + |Multiplies(p, 0)|
  {
    hide Loads, Multiplies, Stores;
  }

  /** Nothing in the tile waits for a bias if nothing is stored. */
  lemma BiasNotAwaited(p: Product)
    requires FromMapping(p) && !p.IsLast() && p.LoadsBias()
    ensures |Program(p)| >= 2 && Program(p)[0] == p.Bias(0)
    ensures !Awaited(Program(p), 0, |Program(p)|) && !SameUnit(Program(p)[0], Program(p)[|Program(p)| - 1])
  {
    FirstIsBias(p);
    SomeMultiply(p);
    ProgramLength(p);
    hide Loads, Multiplies, Stores, Program;
    forall k | 0 < k < |Program(p)|
      ensures !WaitsFor(Program(p)[k], DestPlace(p.Bias(0)))
    {
      ProgramAt(p, k);
      if k >= |Loads(p, 0)| {
        var m, n := MultiplyIs(p, 0, Program(p)[k]);
      }
    }
  }

  lemma FirstIsBias(p: Product)
    requires FromMapping(p) && p.LoadsBias()
    ensures Loads(p, 0) != [] && Program(p)[0] == p.Bias(0)
  {
    assert Loads(p, 0)[0] == LoadsAt(p, 0)[0] == p.Bias(0);
    hide Multiplies, Stores;
  }

  lemma AllWellFormed(p: Product, j: nat)
    requires p.loop > 0 && Asks(p) && j < |Program(p)|
    ensures WellFormed(Program(p)[j], true)
  {
    hide Loads, Multiplies, Stores, Asks;
    ProgramAt(p, j);
    var x := Program(p)[j];
    if j < |Loads(p, 0)| {
      LoadsLoad(p, 0, x);
    } else if j < |Loads(p, 0)| + |Multiplies(p, 0)| {
      var m, n := MultiplyIs(p, 0, x);
    } else {
      assert x == Stores(p, 0)[j - |Loads(p, 0)| - |Multiplies(p, 0)|];
      StoresStore(p, 0, x);
    }
  }

  lemma SettlesIff(p: Product)
    requires FromMapping(p)
    ensures Settling(Program(p)) <==> !p.LoadsBias() || p.IsLast()
  {
    hide Program, Awaited, SameUnit, Writes;
    if !p.LoadsBias() || p.IsLast() {
      forall j | 0 <= j < |Program(p)| - 1 && Writes(Program(p)[j])
        ensures Awaited(Program(p), j, |Program(p)|) || SameUnit(Program(p)[j], Program(p)[|Program(p)| - 1])
      {
        SettlesAt(p, j);
      }
    } else {
      BiasNotAwaited(p);
      BiasWrites(p);
    }
  }

  lemma BiasWrites(p: Product)
    ensures Writes(p.Bias(0))
  {
  }

  /** The program of a tile is well formed, and settles, unless it loads the bias and leaves the sums to be completed
      by a later tile: that is what a product with bias does in its first tile if the inner dimension is split. */
  lemma GoodIff(p: Product)
    requires FromMapping(p) && Asks(p)
    ensures Good(Program(p), true) <==> !(p.hasBias && !p.accum) || p.cOffset + p.inC >= p.totalC
  {
    hide Program, Settling, WellFormed, Asks;
    SettlesIff(p);
    forall j | 0 <= j < |Program(p)|
      ensures WellFormed(Program(p)[j], true)
    {
      AllWellFormed(p, j);
    }
  }
}
