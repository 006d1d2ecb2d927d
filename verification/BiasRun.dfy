/** A program of the repository's own that does not settle, and how it fails: the first tile of a matrix product
    with bias whose inner dimension is split. ONNXim/src/operations/GemmWS.cc:118-133, 241-255. */
module BiasRun {
  import opened Options
  import opened Scratchpad
  import opened Systolic
  import opened Tiles
  import opened Refinement
  import opened TileSafety
  import opened GemmProgram
  import opened CoreSteps
  import opened TileSteps

  /** Below the accumulator's addresses. */
  const ACTS := 0x1000_0000
  const WEIGHTS := 0x1000_0001

  /** Loads `dest` from one address. */
  function Load(dest: nat): Inst { Inst(MovIn, dest, [3], false, 0, 0, 1, 0, false, false, 0) }

  const PRELOAD := Inst(GemmPreload, ACCUM_SPAD_BASE, [ACTS, WEIGHTS], false, 0, 0, 1, 1, false, false, 0)

  /** The bias goes to where the product is summed up; more is to be added, so nothing is stored yet. */
  const BIASED := Tile(7, 1, 1, false, false, [Load(ACCUM_SPAD_BASE), Load(WEIGHTS), Load(ACTS), PRELOAD])
  const SLOT := Slot(BIASED, 1, 1, 0)

  const BIAS_AT := Loc(true, 1, ACCUM_SPAD_BASE)
  const WEIGHTS_AT := Loc(false, 1, WEIGHTS)
  const ACTS_AT := Loc(false, 1, ACTS)
  const PRODUCT := Flying(SLOT.InstAt(3), 6, 10)

  function Awaiting(n: nat): Entry { Entry(n == 0, 1, n) }

  /** The accumulator half, with n writes on their way; the scratchpad half with the weights, and with both. */
  function Sum(n: nat): Half { Half(map[ACCUM_SPAD_BASE := Awaiting(n)], 1) }
  const ONE_LOADED := Half(map[WEIGHTS := Awaiting(1)], 1)
  function Operands(weights: nat, acts: nat): Half {
    Half(map[WEIGHTS := Awaiting(weights), ACTS := Awaiting(acts)], 2)
  }

  // The states ----------------------------------------------------------------------------------------

  const RUN_1 := WithTile(Start(0, 0), BIASED, 1)
  const RUN_2 := RUN_1.(core := RESET.(cycle := 1, ld := [SLOT.InstAt(0)]), tiles := [SLOT.(next := 1)])
  const CORE_3 := RESET.(cycle := 2, banks := Ones(CLEARED, Sum(1)), loads := multiset{BIAS_AT},
                         loaders := map[BIAS_AT := 7])
  const RUN_3 := RUN_2.(core := CORE_3.(ld := [SLOT.InstAt(1)]), tiles := [SLOT.(next := 2)])
  const CORE_4 := RESET.(cycle := 3, banks := Ones(ONE_LOADED, Sum(1)), loads := multiset{BIAS_AT, WEIGHTS_AT},
                         loaders := map[BIAS_AT := 7, WEIGHTS_AT := 7])
  const RUN_4 := RUN_3.(core := CORE_4.(ld := [SLOT.InstAt(2)]), tiles := [SLOT.(next := 3)])
  const CORE_5 := RESET.(cycle := 4, banks := Ones(Operands(1, 1), Sum(1)),
                         loads := multiset{BIAS_AT, WEIGHTS_AT, ACTS_AT},
                         loaders := map[BIAS_AT := 7, WEIGHTS_AT := 7, ACTS_AT := 7])
  const RUN_5 := RUN_4.(core := CORE_5)
  const RUN_6 := RUN_5.(core := CORE_5.(banks := Ones(Operands(0, 1), Sum(1)), loads := multiset{BIAS_AT, ACTS_AT}))
  const CORE_7 := CORE_5.(banks := Ones(Operands(0, 0), Sum(1)), loads := multiset{BIAS_AT})
  const RUN_7 := RUN_5.(core := CORE_7)
  const RUN_8 := RUN_7.(core := CORE_7.(cycle := 5, ex := [SLOT.InstAt(3)]), tiles := [SLOT.(next := 4)])
  const CORE_9 := CORE_7.(cycle := 6, pipe := [PRODUCT], issued := [PRODUCT], issues := 1, preloads := 1,
                          banks := Ones(Operands(0, 0), Sum(2)))
  const RUN_9 := RUN_8.(core := CORE_9)
  const CORE_14 := CORE_9.(cycle := 11, pipe := [], retired := [Done(PRODUCT, 10)], marked := {7},
                           banks := Ones(Operands(0, 0), Sum(1)))
  const RUN_14 := RUN_9.(core := CORE_14, tiles := [], finished := [SLOT.(next := 4)])

  function Idling(n: nat): State { RUN_9.(core := CORE_9.(cycle := n)) }

  // Loading -------------------------------------------------------------------------------------------

  lemma TakesLoad(s: State, slot: Slot)
    requires s.tiles == [slot] && s.rr == 0 && !slot.Dispatched() && slot.InstAt(slot.next).opcode.MovIn?
    requires CanAllocate(TINY, s.core.banks, Dest(slot.InstAt(slot.next)), 1) && slot.InstAt(slot.next).size == 1
    ensures DispatchFrom(TINY, s, 0) == Goes(s.(core := s.core.(ld := s.core.ld + [slot.InstAt(slot.next)]),
                                                tiles := [slot.(next := slot.next + 1)]))
  {
    hide CanAllocate, DispatchFrom;
    FirstDispatches(TINY, s);
    assert s.tiles[0 := slot.(next := slot.next + 1)] == [slot.(next := slot.next + 1)];
  }

  lemma BiasDispatched()
    ensures StepTo(TINY, RUN_1, OneCycle) == Goes(RUN_2)
  {
    hide Tick, StepTo, DispatchFrom, Retired;
    IdleTick(TINY, RESET);
    TakesLoad(RUN_1.(core := Later(RESET)), SLOT);
    CycleIs(TINY, RUN_1, Later(RESET), RUN_2);
    NoneRetires(RUN_2);
  }

  lemma BiasAllocated()
    ensures CanAllocate(TINY, RESET.banks, BIAS_AT, 1)
    ensures Allocate(TINY, RESET.banks, BIAS_AT, 1, 1) == CORE_3.banks
    ensures CanAllocate(TINY, CORE_3.banks, WEIGHTS_AT, 1)
  {
    assert RESET.banks.accum[1 := Sum(1)] == CORE_3.banks.accum;
  }

  lemma WeightsDispatched()
    ensures StepTo(TINY, RUN_2, OneCycle) == Goes(RUN_3)
  {
    BiasAllocated();
    hide Tick, StepTo, DispatchFrom, Retired, CanAllocate, Allocate;
    LoadTick(TINY, RUN_2.core, SLOT.InstAt(0));
    TakesLoad(RUN_2.(core := CORE_3), SLOT.(next := 1));
    CycleIs(TINY, RUN_2, CORE_3, RUN_3);
    NoneRetires(RUN_3);
  }

  lemma WeightsAllocated()
    ensures CanAllocate(TINY, CORE_3.banks, WEIGHTS_AT, 1)
    ensures Allocate(TINY, CORE_3.banks, WEIGHTS_AT, 1, 1) == CORE_4.banks
    ensures CanAllocate(TINY, CORE_4.banks, ACTS_AT, 1)
  {
    assert CORE_3.banks.spad[1 := ONE_LOADED] == CORE_4.banks.spad;
  }

  lemma ActsDispatched()
    ensures StepTo(TINY, RUN_3, OneCycle) == Goes(RUN_4)
  {
    WeightsAllocated();
    hide Tick, StepTo, DispatchFrom, Retired, CanAllocate, Allocate;
    LoadTick(TINY, RUN_3.core, SLOT.InstAt(1));
    assert multiset{BIAS_AT}[WEIGHTS_AT := 1] == multiset{BIAS_AT, WEIGHTS_AT};
    TakesLoad(RUN_3.(core := CORE_4), SLOT.(next := 2));
    CycleIs(TINY, RUN_3, CORE_4, RUN_4);
    NoneRetires(RUN_4);
  }

  lemma ActsAllocated()
    ensures CanAllocate(TINY, CORE_4.banks, ACTS_AT, 1)
    ensures Allocate(TINY, CORE_4.banks, ACTS_AT, 1, 1) == CORE_5.banks
    ensures !Ready(CORE_5.banks, ACTS_AT)
  {
    assert ONE_LOADED.table[ACTS := Awaiting(1)] == Operands(1, 1).table;
    assert CORE_4.banks.spad[1 := Operands(1, 1)] == CORE_5.banks.spad;
  }

  /** The product has to wait for its operands. */
  lemma ActsLoaded()
    ensures StepTo(TINY, RUN_4, OneCycle) == Goes(RUN_5)
  {
    ActsAllocated();
    hide Tick, StepTo, DispatchFrom, Retired, CanAllocate, Allocate, Ready;
    LoadTick(TINY, RUN_4.core, SLOT.InstAt(2));
    assert multiset{BIAS_AT, WEIGHTS_AT}[ACTS_AT := 1] == multiset{BIAS_AT, WEIGHTS_AT, ACTS_AT};
    var i := SLOT.InstAt(3);
    assert Src(i, ACTS) == ACTS_AT && ACTS in i.srcs;
    assert !CanIssue(TINY, RUN_5.core, i);
    NothingToDispatch(TINY, RUN_5, 0);
    CycleIs(TINY, RUN_4, CORE_5, RUN_5);
    NoneRetires(RUN_5);
  }

  lemma OperandsArrive()
    ensures StepTo(TINY, RUN_5, ReadAnswered(WEIGHTS_AT)) == Goes(RUN_6)
    ensures StepTo(TINY, RUN_6, ReadAnswered(ACTS_AT)) == Goes(RUN_7)
  {
    FilledOperands();
    hide CanFill, FilledAt, Ones;
    assert multiset{BIAS_AT, WEIGHTS_AT, ACTS_AT} - multiset{WEIGHTS_AT} == multiset{BIAS_AT, ACTS_AT};
    assert multiset{BIAS_AT, ACTS_AT} - multiset{ACTS_AT} == multiset{BIAS_AT};
  }

  lemma FilledOperands()
    ensures CanFill(CORE_5.banks, WEIGHTS_AT) && FilledAt(CORE_5.banks, WEIGHTS_AT) == RUN_6.core.banks
    ensures CanFill(RUN_6.core.banks, ACTS_AT) && FilledAt(RUN_6.core.banks, ACTS_AT) == CORE_7.banks
  {
    assert Filled(Operands(1, 1), WEIGHTS).table == Operands(0, 1).table;
    assert Filled(Operands(0, 1), ACTS).table == Operands(0, 0).table;
    assert CORE_5.banks.spad[1 := Operands(0, 1)] == RUN_6.core.banks.spad;
    assert RUN_6.core.banks.spad[1 := Operands(0, 0)] == CORE_7.banks.spad;
  }

  // Multiplying ---------------------------------------------------------------------------------------

  lemma CanMultiply(c: Core)
    requires c == CORE_7.(cycle := 5)
    ensures CanIssue(TINY, c, SLOT.InstAt(3))
  {
  }

  lemma ProductDispatched()
    ensures StepTo(TINY, RUN_7, OneCycle) == Goes(RUN_8)
  {
    hide Tick, StepTo, DispatchFrom, Retired, CanIssue, Ones, Operands;
    var s := RUN_7.(core := Later(CORE_7));
    IdleTick(TINY, CORE_7);
    CanMultiply(s.core);
    TakenCompute(s, 0);
    FirstDispatches(TINY, s);
    CycleIs(TINY, RUN_7, Later(CORE_7), RUN_8);
    NoneRetires(RUN_8);
  }

  lemma ProductReserves()
    ensures CanReserve(TINY, CORE_7.banks, SLOT.InstAt(3))
    ensures Reserve(TINY, CORE_7.banks, SLOT.InstAt(3)) == CORE_9.banks
  {
    assert CountedUp(Sum(1), ACCUM_SPAD_BASE).table == Sum(2).table;
    assert CORE_7.banks.accum[1 := Sum(2)] == CORE_9.banks.accum;
  }

  lemma ProductStarts()
    ensures StepTo(TINY, RUN_8, OneCycle) == Goes(RUN_9)
  {
    hide Tick, StepTo, DispatchFrom, Retired, CanIssue, CanReserve, Reserve, Ones, Operands, Sum;
    StillCanMultiply();
    ProductReserves();
    LaunchTick(TINY, RUN_8.core, SLOT.InstAt(3));
    NothingToDispatch(TINY, RUN_9, 0);
    CycleIs(TINY, RUN_8, CORE_9, RUN_9);
    NoneRetires(RUN_9);
  }

  lemma StillCanMultiply()
    ensures CanIssue(TINY, RUN_8.core, SLOT.InstAt(3))
  {
  }

  lemma Idles(n: nat)
    requires 6 <= n < 10
    ensures StepTo(TINY, Idling(n), OneCycle) == Goes(Idling(n + 1))
  {
    hide StepTo, Ones, Operands, Sum;
    CycleIdles(TINY, Idling(n));
  }

  lemma ProductFills()
    ensures CanFill(CORE_9.banks, BIAS_AT) && FilledAt(CORE_9.banks, BIAS_AT) == CORE_14.banks
  {
    assert Filled(Sum(2), ACCUM_SPAD_BASE).table == Sum(1).table;
    assert CORE_9.banks.accum[1 := Sum(1)] == CORE_14.banks.accum;
  }

  /** The product arrives, and with it the tile has finished; the bias is still on its way. */
  lemma TileRetires()
    ensures StepTo(TINY, Idling(10), OneCycle) == Goes(RUN_14)
  {
    hide Tick, StepTo, DispatchFrom, Retired, CanFill, FilledAt, Ones, Operands, Sum;
    var d := RUN_14.(tiles := RUN_9.tiles, finished := []);
    ProductFills();
    assert Dest(PRODUCT.inst) == BIAS_AT;
    FinishTick(TINY, Idling(10).core);
    NothingToDispatch(TINY, d, 0);
    CycleIs(TINY, Idling(10), CORE_14, d);
    FirstRetires(d);
  }

  // Failing -------------------------------------------------------------------------------------------

  /** The smallest product of the kind: one row, one column, and two steps of depth in two tiles. */
  const SMALLEST := Product(1, 1, 1, 1, 0, 0, 0, 1, 1, 2, 1, true, false, (m: nat) => [3], (m: nat) => [3],
                            (n: nat) => [3], (m: nat, n: nat) => [3])

  lemma IsTileOfProduct()
    ensures FromMapping(SMALLEST) && Program(SMALLEST) == BIASED.program
  {
    var p := SMALLEST;
    assert ActLoads(p, 0) == [p.Acts(0)] + ActLoads(p, 1) == [p.Acts(0)];
    assert Loads(p, 0) == LoadsAt(p, 0) + Loads(p, 1) == LoadsAt(p, 0);
    assert Steps(p, 0, 0, 0) == [p.Multiply(0, 0)] + Steps(p, 0, 0, 1) == [p.Multiply(0, 0)];
    assert RowMultiplies(p, 0, 0) == Steps(p, 0, 0, 0) + RowMultiplies(p, 0, 1) == Steps(p, 0, 0, 0);
    assert Multiplies(p, 0) == RowMultiplies(p, 0, 0) + Multiplies(p, 1) == RowMultiplies(p, 0, 0);
  }

  lemma BiasFindsNothing()
    ensures StepTo(TINY, WithNext(RUN_14), ReadAnswered(BIAS_AT)) == FillFails
  {
  }

  lemma BiasStillOut()
    ensures BIAS_AT in RUN_14.core.loads && !QuietIssue(RUN_14, NEXT_ONE)
  {
    LoadsAreWrites(RUN_14.core, BIAS_AT);
    hide Writers;
  }

  lemma BiasedRuns()
    ensures Leads(TINY, Start(0, 0), [IssueTile(BIASED), OneCycle, OneCycle, OneCycle, OneCycle,
                                      ReadAnswered(WEIGHTS_AT), ReadAnswered(ACTS_AT), OneCycle, OneCycle,
                                      OneCycle, OneCycle, OneCycle, OneCycle, OneCycle], RUN_14)
  {
    hide StepTo, Leads, Ones, Operands, Sum;
    var es := [IssueTile(BIASED), OneCycle, OneCycle, OneCycle, OneCycle, ReadAnswered(WEIGHTS_AT),
               ReadAnswered(ACTS_AT), OneCycle, OneCycle, OneCycle, OneCycle, OneCycle, OneCycle, OneCycle];
    var states := [Start(0, 0), RUN_1, RUN_2, RUN_3, RUN_4, RUN_5, RUN_6, RUN_7, RUN_8, Idling(6), Idling(7), Idling(8),
                   Idling(9), Idling(10), RUN_14];
    IssuedAs(Start(0, 0), BIASED);
    BiasDispatched();
    WeightsDispatched();
    ActsDispatched();
    ActsLoaded();
    OperandsArrive();
    ProductDispatched();
    ProductStarts();
    Idles(6);
    Idles(7);
    Idles(8);
    Idles(9);
    TileRetires();
    PathLeads(TINY, states, es);
    assert states[|es|] == RUN_14;
  }

  /** The first tile of a product with bias and a split inner dimension loads the bias, loads its operands, and
      multiplies; it stores nothing, so nothing in it waits for the bias. If the bias is answered last, the tile has
      been handed back before; and if the next tile then gets its half, the bias finds its entry gone. */
  lemma BiasedTileFails()
    ensures FromMapping(SMALLEST) && BIASED.program == Program(SMALLEST)
    ensures !Settling(BIASED.program) && forall j :: 0 <= j < 4 ==> WellFormed(BIASED.program[j], true)
    ensures exists s, t :: Leads(TINY, Start(0, 0), [IssueTile(BIASED), OneCycle, OneCycle, OneCycle, OneCycle,
                                                     ReadAnswered(WEIGHTS_AT), ReadAnswered(ACTS_AT), OneCycle,
                                                     OneCycle, OneCycle, OneCycle, OneCycle, OneCycle, OneCycle], s)
              && s.tiles == [] && BIAS_AT in s.core.loads && !QuietIssue(s, NEXT_ONE)
              && Leads(TINY, s, [IssueTile(NEXT_ONE)], t) && StepTo(TINY, t, ReadAnswered(BIAS_AT)) == FillFails
  {
    hide StepTo, Leads, Settling, QuietIssue, Ones, Operands, Sum;
    IsTileOfProduct();
    SettlesIff(SMALLEST);
    BiasedRuns();
    BiasStillOut();
    BiasFindsNothing();
    NextIssued(RUN_14, Operands(0, 0), Sum(1));
    PathLeads(TINY, [RUN_14, WithNext(RUN_14)], [IssueTile(NEXT_ONE)]);
    assert [RUN_14, WithNext(RUN_14)][|[IssueTile(NEXT_ONE)]|] == WithNext(RUN_14);
  }
}
