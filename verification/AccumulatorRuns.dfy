/** Three runs for the three ways the half of a tile that continues the tile issued last can turn out.
    ONNXim/src/Core.cc:73-90. */
module AccumulatorRuns {
  import opened Options
  import opened Scratchpad
  import opened Systolic
  import opened Tiles
  import opened CoreSteps
  import opened TileSteps

  const LONG := Tile(1, 1, 1, false, false, [MATRIX])
  const SHORT := Tile(1, 1, 1, false, false, [VECTOR])
  const SECOND := Tile(2, 2, 2, false, false, [VECTOR])

  /** The tile adds to the sums of the tile issued last. */
  predicate ContinuesLast(s: State, t: Tile) {
    s.last.Some? && t.accum && t.layer == s.last.value.tile.layer && t.fusedOp == s.last.value.tile.fusedOp
  }

  /** The sums of the vector tile issued last are there, in its half. */
  predicate SumsReady(s: State) {
    s.last.Some? && Ready(s.core.banks, Loc(true, s.last.value.accumSpadId, VECTOR.dest))
  }

  // One tile, and then none ---------------------------------------------------------------------------

  const ALONE := Slot(SHORT, 1, 1, 0)
  const ALONE_INST := ALONE.InstAt(0)

  const ALONE_1 := WithTile(Start(0, 0), SHORT, 1)
  const ALONE_2 := ALONE_1.(core := RESET.(cycle := 1, ex := [ALONE_INST]), tiles := [ALONE.(next := 1)])
  const ALONE_3 := ALONE_2.(core := RESET.(cycle := 2, vector := [Flying(ALONE_INST, 1, 2)],
                                           banks := Holding(RESET.banks, 1, VECTOR.dest, false)))
  const ALONE_4 := ALONE_3.(core := RESET.(cycle := 3, banks := Holding(RESET.banks, 1, VECTOR.dest, true),
                                           marked := {1}, vectorDone := [Done(Flying(ALONE_INST, 1, 2), 2)]),
                            tiles := [], finished := [ALONE.(next := 1)])

  lemma AloneDispatches()
    ensures StepTo(TINY, ALONE_1, OneCycle) == Goes(ALONE_2)
  {
    hide Tick, StepTo, DispatchFrom, Retired, Taken;
    var s := ALONE_1.(core := Later(RESET));
    IdleTick(TINY, RESET);
    CanTakeCompute(s, ALONE);
    TakenCompute(s, 0);
    FirstDispatches(TINY, s);
    CycleIs(TINY, ALONE_1, Later(RESET), ALONE_2);
    NoneRetires(ALONE_2);
  }

  lemma AloneStarts()
    ensures StepTo(TINY, ALONE_2, OneCycle) == Goes(ALONE_3)
  {
    hide Tick, StepTo, DispatchFrom, Retired, Holding;
    ReserveHolds(RESET.banks, ALONE_INST, 1);
    VectorLaunch(ALONE_2.core, ALONE_INST, Holding(RESET.banks, 1, VECTOR.dest, false));
    NothingToDispatch(TINY, ALONE_3, 0);
    CycleIs(TINY, ALONE_2, ALONE_3.core, ALONE_3);
    NoneRetires(ALONE_3);
  }

  lemma AloneRetires()
    ensures StepTo(TINY, ALONE_3, OneCycle) == Goes(ALONE_4)
  {
    hide Tick, StepTo, DispatchFrom, Retired, Holding;
    var s := ALONE_4.(tiles := ALONE_3.tiles, finished := []);
    FillHolds(RESET.banks, 1, VECTOR.dest);
    VectorFinish(ALONE_3.core, Flying(ALONE_INST, 1, 2), Holding(RESET.banks, 1, VECTOR.dest, true));
    NothingToDispatch(TINY, s, 0);
    CycleIs(TINY, ALONE_3, s.core, s);
    FirstRetires(s);
  }

  /** With no tile in flight a tile that continues may get the other half, uncleared: the sums it is to add to
      stay in half 1. */
  lemma IdleMayLose(t: Tile)
    requires t.accum && t.layer == SHORT.layer && t.fusedOp == SHORT.fusedOp
    ensures exists s :: Leads(TINY, Start(0, 0), [IssueTile(SHORT), OneCycle, OneCycle, OneCycle], s)
              && s.tiles == [] && ContinuesLast(s, t) && SumsReady(s)
              && SlotFor(s, t).accumSpadId != s.last.value.accumSpadId
              && Issued(s, t).core.banks.accum == s.core.banks.accum
  {
    var es, states := [IssueTile(SHORT), OneCycle, OneCycle, OneCycle],
      [Start(0, 0), ALONE_1, ALONE_2, ALONE_3, ALONE_4];
    hide StepTo, Leads;
    IssuedAs(Start(0, 0), SHORT);
    AloneDispatches();
    AloneStarts();
    AloneRetires();
    PathLeads(TINY, states, es);
    assert states[|es|] == ALONE_4;
  }

  // Two tiles, and then none --------------------------------------------------------------------------

  const PAIRED := Slot(SECOND, 0, 0, 0)
  const PAIRED_INST := PAIRED.InstAt(0)

  const FIRST_OP := Flying(ALONE_INST, 1, 2)
  const SECOND_OP := Flying(PAIRED_INST, 3, 4)
  const FIRST_SUMS := Holding(RESET.banks, 1, VECTOR.dest, true)

  const PAIR_2 := WithTile(ALONE_1, SECOND, 0)
  const PAIR_3 := PAIR_2.(core := RESET.(cycle := 1, ex := [ALONE_INST]), tiles := [ALONE.(next := 1), PAIRED])
  const PAIR_4 := PAIR_3.(core := ALONE_3.core)
  const PAIR_5 := PAIR_4.(core := ALONE_4.core.(ex := [PAIRED_INST]), tiles := [PAIRED.(next := 1)], rr := 1,
                          finished := [ALONE.(next := 1)])
  const PAIR_6 := PAIR_5.(core := ALONE_4.core.(cycle := 4, vector := [SECOND_OP],
                                                banks := Holding(FIRST_SUMS, 0, VECTOR.dest, false)))
  const PAIR_7 := PAIR_6.(core := ALONE_4.core.(cycle := 5, banks := Holding(FIRST_SUMS, 0, VECTOR.dest, true),
                                                marked := {1, 2},
                                                vectorDone := [Done(FIRST_OP, 2), Done(SECOND_OP, 4)]),
                          tiles := [], finished := [ALONE.(next := 1), PAIRED.(next := 1)])

  lemma PairDispatches()
    ensures StepTo(TINY, PAIR_2, OneCycle) == Goes(PAIR_3)
  {
    hide Tick, StepTo, DispatchFrom, Retired, Taken;
    var s := PAIR_2.(core := Later(RESET));
    IdleTick(TINY, RESET);
    CanTakeCompute(s, ALONE);
    TakenCompute(s, 0);
    FirstDispatches(TINY, s);
    CycleIs(TINY, PAIR_2, Later(RESET), PAIR_3);
    NoneRetires(PAIR_3);
  }

  /** The first operation starts; while it occupies the unit the second tile cannot dispatch. */
  lemma PairStarts()
    ensures StepTo(TINY, PAIR_3, OneCycle) == Goes(PAIR_4)
  {
    hide Tick, StepTo, DispatchFrom, Retired, Holding;
    ReserveHolds(RESET.banks, ALONE_INST, 1);
    VectorLaunch(PAIR_3.core, ALONE_INST, Holding(RESET.banks, 1, VECTOR.dest, false));
    NothingToDispatch(TINY, PAIR_4, 0);
    CycleIs(TINY, PAIR_3, PAIR_4.core, PAIR_4);
    NoneRetires(PAIR_4);
  }

  lemma PairRetiresFirst()
    ensures StepTo(TINY, PAIR_4, OneCycle) == Goes(PAIR_5)
  {
    hide Tick, StepTo, DispatchFrom, Retired, Holding, Taken;
    var s := PAIR_4.(core := ALONE_4.core);
    var d := PAIR_5.(tiles := [ALONE.(next := 1), PAIRED.(next := 1)], finished := []);
    FillHolds(RESET.banks, 1, VECTOR.dest);
    VectorFinish(PAIR_4.core, FIRST_OP, FIRST_SUMS);
    CanTakeCompute(s, PAIRED);
    TakenCompute(s, 1);
    SecondDispatches(TINY, s);
    CycleIs(TINY, PAIR_4, s.core, d);
    FirstRetires(d);
  }

  lemma PairStartsSecond()
    ensures StepTo(TINY, PAIR_5, OneCycle) == Goes(PAIR_6)
  {
    hide Tick, StepTo, DispatchFrom, Retired;
    ReserveHolds(FIRST_SUMS, PAIRED_INST, 0);
    hide Holding;
    VectorLaunch(PAIR_5.core, PAIRED_INST, Holding(FIRST_SUMS, 0, VECTOR.dest, false));
    NothingToDispatch(TINY, PAIR_6, 0);
    CycleIs(TINY, PAIR_5, PAIR_6.core, PAIR_6);
    NoneRetires(PAIR_6);
  }

  lemma PairRetiresSecond()
    ensures StepTo(TINY, PAIR_6, OneCycle) == Goes(PAIR_7)
  {
    hide Tick, StepTo, DispatchFrom, Retired, Holding;
    var d := PAIR_7.(tiles := [PAIRED.(next := 1)], finished := PAIR_6.finished);
    FillHolds(FIRST_SUMS, 0, VECTOR.dest);
    VectorFinish(PAIR_6.core, SECOND_OP, Holding(FIRST_SUMS, 0, VECTOR.dest, true));
    assert {1} + {2} == {1, 2} && [Done(FIRST_OP, 2)] + [Done(SECOND_OP, 4)] == [Done(FIRST_OP, 2), Done(SECOND_OP, 4)];
    NothingToDispatch(TINY, d, 0);
    CycleIs(TINY, PAIR_6, d.core, d);
    FirstRetires(d);
    assert [ALONE.(next := 1)] + [PAIRED.(next := 1)] == [ALONE.(next := 1), PAIRED.(next := 1)];
  }

  /** Nor does an idle core always break the sharing: the last tile had half 0, and the one that continues it gets
      it again. */
  lemma IdleMayKeep(t: Tile)
    requires t.accum && t.layer == SECOND.layer && t.fusedOp == SECOND.fusedOp
    ensures exists s :: Leads(TINY, Start(0, 0), [IssueTile(SHORT), IssueTile(SECOND), OneCycle, OneCycle, OneCycle,
                                                  OneCycle, OneCycle], s)
              && s.tiles == [] && ContinuesLast(s, t) && SumsReady(s)
              && SlotFor(s, t).accumSpadId == s.last.value.accumSpadId
              && Issued(s, t).core.banks.accum == s.core.banks.accum
  {
    var es, states := [IssueTile(SHORT), IssueTile(SECOND), OneCycle, OneCycle, OneCycle, OneCycle, OneCycle],
      [Start(0, 0), ALONE_1, PAIR_2, PAIR_3, PAIR_4, PAIR_5, PAIR_6, PAIR_7];
    hide StepTo, Leads;
    IssuedAs(Start(0, 0), SHORT);
    IssuedAs(ALONE_1, SECOND);
    PairDispatches();
    PairStarts();
    PairRetiresFirst();
    PairStartsSecond();
    PairRetiresSecond();
    PathLeads(TINY, states, es);
    assert states[|es|] == PAIR_7;
  }

  // Two tiles, and then the first alone ---------------------------------------------------------------

  const KEPT := Slot(LONG, 1, 1, 0)
  const KEPT_INST := KEPT.InstAt(0)

  const LONG_OP := Flying(KEPT_INST, 1, 5)
  const QUICK_OP := Flying(PAIRED_INST, 2, 3)
  const LONG_SUMS := Holding(RESET.banks, 1, MATRIX.dest, false)

  const BUSY_1 := WithTile(Start(0, 0), LONG, 1)
  const BUSY_2 := WithTile(BUSY_1, SECOND, 0)
  const BUSY_3 := BUSY_2.(core := RESET.(cycle := 1, ex := [KEPT_INST]), tiles := [KEPT.(next := 1), PAIRED])
  const RUNNING := RESET.(cycle := 2, pipe := [LONG_OP], issued := [LONG_OP], issues := 1, banks := LONG_SUMS)
  const BUSY_4 := BUSY_3.(core := RUNNING.(ex := [PAIRED_INST]), tiles := [KEPT.(next := 1), PAIRED.(next := 1)],
                          rr := 1)
  const BUSY_5 := BUSY_4.(core := RUNNING.(cycle := 3, vector := [QUICK_OP],
                                           banks := Holding(LONG_SUMS, 0, VECTOR.dest, false)))
  const BUSY_6 := BUSY_5.(core := RUNNING.(cycle := 4, banks := Holding(LONG_SUMS, 0, VECTOR.dest, true), marked := {2},
                                           vectorDone := [Done(QUICK_OP, 3)]),
                          tiles := [KEPT.(next := 1)], finished := [PAIRED.(next := 1)])

  lemma BusyDispatches()
    ensures StepTo(TINY, BUSY_2, OneCycle) == Goes(BUSY_3)
  {
    hide Tick, StepTo, DispatchFrom, Retired, Taken;
    var s := BUSY_2.(core := Later(RESET));
    IdleTick(TINY, RESET);
    CanTakeCompute(s, KEPT);
    TakenCompute(s, 0);
    FirstDispatches(TINY, s);
    CycleIs(TINY, BUSY_2, Later(RESET), BUSY_3);
    NoneRetires(BUSY_3);
  }

  lemma BusyStartsFirst()
    ensures StepTo(TINY, BUSY_3, OneCycle) == Goes(BUSY_4)
  {
    hide Tick, StepTo, DispatchFrom, Retired, Holding, Taken;
    var s := BUSY_3.(core := RUNNING);
    ReserveHolds(RESET.banks, KEPT_INST, 1);
    MatrixLaunch(BUSY_3.core, KEPT_INST, LONG_SUMS);
    CanTakeCompute(s, PAIRED);
    TakenCompute(s, 1);
    SecondDispatches(TINY, s);
    CycleIs(TINY, BUSY_3, RUNNING, BUSY_4);
    NoneRetires(BUSY_4);
  }

  lemma BusyStartsSecond()
    ensures StepTo(TINY, BUSY_4, OneCycle) == Goes(BUSY_5)
  {
    hide Tick, StepTo, DispatchFrom, Retired;
    ReserveHolds(LONG_SUMS, PAIRED_INST, 0);
    hide Holding;
    VectorLaunch(BUSY_4.core, PAIRED_INST, Holding(LONG_SUMS, 0, VECTOR.dest, false));
    NothingToDispatch(TINY, BUSY_5, 0);
    CycleIs(TINY, BUSY_4, BUSY_5.core, BUSY_5);
    NoneRetires(BUSY_5);
  }

  lemma BusyRetiresSecond()
    ensures StepTo(TINY, BUSY_5, OneCycle) == Goes(BUSY_6)
  {
    hide Tick, StepTo, DispatchFrom, Retired, Holding;
    var d := BUSY_6.(tiles := BUSY_5.tiles, finished := []);
    FillHolds(LONG_SUMS, 0, VECTOR.dest);
    VectorFinish(BUSY_5.core, QUICK_OP, Holding(LONG_SUMS, 0, VECTOR.dest, true));
    NothingToDispatch(TINY, d, 0);
    CycleIs(TINY, BUSY_5, d.core, d);
    SecondRetires(d);
  }

  /** With another tile in flight a tile that continues may get that one's half, and with it sums that are none of
      its own: one long matrix instruction is still running when the tile issued last has finished. */
  lemma BusyMayLose(t: Tile)
    requires t.accum && t.layer == SECOND.layer && t.fusedOp == SECOND.fusedOp
    ensures exists s :: Leads(TINY, Start(0, 0), [IssueTile(LONG), IssueTile(SECOND), OneCycle, OneCycle, OneCycle,
                                                  OneCycle], s)
              && |s.tiles| == 1 && s.tiles[0].tile == LONG && ContinuesLast(s, t) && SumsReady(s)
              && SlotFor(s, t).accumSpadId == s.tiles[0].accumSpadId != s.last.value.accumSpadId
              && Issued(s, t).core.banks.accum == s.core.banks.accum
  {
    var es, states := [IssueTile(LONG), IssueTile(SECOND), OneCycle, OneCycle, OneCycle, OneCycle],
      [Start(0, 0), BUSY_1, BUSY_2, BUSY_3, BUSY_4, BUSY_5, BUSY_6];
    hide StepTo, Leads;
    IssuedAs(Start(0, 0), LONG);
    IssuedAs(BUSY_1, SECOND);
    BusyDispatches();
    BusyStartsFirst();
    BusyStartsSecond();
    BusyRetiresSecond();
    PathLeads(TINY, states, es);
    assert states[|es|] == BUSY_6;
  }
}
