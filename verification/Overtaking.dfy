/** A program that does not settle, and how it fails: its last instruction overtakes an earlier one.
    ONNXim/src/Core.cc:182-192, 304-348. */
module Overtaking {
  import opened Options
  import opened Scratchpad
  import opened Systolic
  import opened Tiles
  import opened Refinement
  import opened TileSafety
  import opened CoreSteps
  import opened TileSteps

  /** A matrix instruction, and behind it a vector operation that nothing makes wait for it. */
  const OVERTAKING := Tile(7, 1, 1, false, false, [MATRIX, VECTOR])
  const SLOT := Slot(OVERTAKING, 1, 1, 0)
  const SLOW := Flying(SLOT.InstAt(0), 1, 5)
  const FAST := Flying(SLOT.InstAt(1), 2, 3)

  /** The accumulator half with both results, the second of them there or still on its way. */
  function Both(valid: bool): Half {
    Half(map[MATRIX.dest := Entry(false, 1, 1), VECTOR.dest := Entry(valid, 1, if valid then 0 else 1)], 2)
  }

  const RUN_1 := WithTile(Start(0, 0), OVERTAKING, 1)
  const RUN_2 := RUN_1.(core := RESET.(cycle := 1, ex := [SLOT.InstAt(0)]), tiles := [SLOT.(next := 1)])
  const RUNNING := RESET.(cycle := 2, pipe := [SLOW], issued := [SLOW], issues := 1,
                          banks := Holding(RESET.banks, 1, MATRIX.dest, false))
  const RUN_3 := RUN_2.(core := RUNNING.(ex := [SLOT.InstAt(1)]), tiles := [SLOT.(next := 2)])
  const RUN_4 := RUN_3.(core := RUNNING.(cycle := 3, vector := [FAST], banks := Ones(CLEARED, Both(false))))
  const RUN_5 := RUN_4.(core := RUNNING.(cycle := 4, banks := Ones(CLEARED, Both(true)), marked := {7},
                                         vectorDone := [Done(FAST, 3)]),
                        tiles := [], finished := [SLOT.(next := 2)])

  lemma MatrixDispatched()
    ensures StepTo(TINY, RUN_1, OneCycle) == Goes(RUN_2)
  {
    hide Tick, StepTo, DispatchFrom, Retired, Taken;
    var s := RUN_1.(core := Later(RESET));
    IdleTick(TINY, RESET);
    CanTakeCompute(s, SLOT);
    TakenCompute(s, 0);
    FirstDispatches(TINY, s);
    CycleIs(TINY, RUN_1, Later(RESET), RUN_2);
    NoneRetires(RUN_2);
  }

  lemma MatrixStarts()
    ensures StepTo(TINY, RUN_2, OneCycle) == Goes(RUN_3)
  {
    hide Tick, StepTo, DispatchFrom, Retired, Holding, Taken, Both, Ones, CanReserve, Reserve;
    var s := RUN_2.(core := RUNNING);
    ReserveHolds(RESET.banks, SLOT.InstAt(0), 1);
    MatrixLaunch(RUN_2.core, SLOT.InstAt(0), RUNNING.banks);
    CanTakeCompute(s, SLOT.(next := 1));
    TakenCompute(s, 0);
    FirstDispatches(TINY, s);
    CycleIs(TINY, RUN_2, RUNNING, RUN_3);
    NoneRetires(RUN_3);
  }

  lemma ReservesBoth()
    ensures CanReserve(TINY, RUNNING.banks, SLOT.InstAt(1))
    ensures Reserve(TINY, RUNNING.banks, SLOT.InstAt(1)) == Ones(CLEARED, Both(false))
  {
    var b := Reserve(TINY, RUNNING.banks, SLOT.InstAt(1));
    assert b.accum[1].table == Both(false).table;
    assert b.accum == Ones(CLEARED, Both(false)).accum && b.spad == Ones(CLEARED, Both(false)).spad;
  }

  lemma FillsBoth()
    ensures var b, l := Ones(CLEARED, Both(false)), Loc(true, 1, VECTOR.dest);
            CanFill(b, l) && FilledAt(b, l) == Ones(CLEARED, Both(true))
  {
    var b, l := Ones(CLEARED, Both(false)), Loc(true, 1, VECTOR.dest);
    assert FilledAt(b, l).accum[1].table == Both(true).table;
    assert FilledAt(b, l).accum == Ones(CLEARED, Both(true)).accum;
  }

  lemma VectorStarts()
    ensures StepTo(TINY, RUN_3, OneCycle) == Goes(RUN_4)
  {
    hide Tick, StepTo, DispatchFrom, Retired, Holding, Both, Ones;
    ReservesBoth();
    VectorLaunch(RUN_3.core, SLOT.InstAt(1), RUN_4.core.banks);
    NothingToDispatch(TINY, RUN_4, 0);
    CycleIs(TINY, RUN_3, RUN_4.core, RUN_4);
    NoneRetires(RUN_4);
  }

  /** The vector operation finishes, and with it the tile. */
  lemma TileOvertaken()
    ensures StepTo(TINY, RUN_4, OneCycle) == Goes(RUN_5)
  {
    hide Tick, StepTo, DispatchFrom, Retired, Holding, Both, Ones;
    var d := RUN_5.(tiles := RUN_4.tiles, finished := []);
    FillsBoth();
    VectorFinish(RUN_4.core, FAST, RUN_5.core.banks);
    NothingToDispatch(TINY, d, 0);
    CycleIs(TINY, RUN_4, d.core, d);
    FirstRetires(d);
  }

  /** The half of the next tile is the one the matrix instruction still writes to. */
  lemma FlushesWriter()
    ensures !QuietIssue(RUN_5, NEXT_ONE)
  {
    DestIn(RUN_5.core.pipe, 0);
    assert Loc(true, 1, MATRIX.dest) in Writers(RUN_5.core);
  }

  lemma MatrixFindsNothing(s: State)
    requires s.core == WithNext(RUN_5).core.(cycle := 5)
    ensures StepTo(TINY, s, OneCycle) == FillFails
  {
    FinishTick(TINY, s.core);
    hide Tick;
  }

  lemma NotSettling()
    ensures !Settling(OVERTAKING.program)
  {
    assert Writes(OVERTAKING.program[0]) && !SameUnit(OVERTAKING.program[0], OVERTAKING.program[1]);
  }

  /** Without settling programs the core is not safe. A vector operation that is its tile's last instruction
      finishes before an earlier matrix instruction; the tile is handed back, the next one gets its half of the
      accumulator, and the matrix instruction finds its entry gone. */
  lemma OvertakenTileFails()
    ensures !Settling(OVERTAKING.program) && WellFormed(MATRIX, true) && WellFormed(VECTOR, true)
    ensures exists s, t :: Leads(TINY, Start(0, 0), [IssueTile(OVERTAKING), OneCycle, OneCycle, OneCycle, OneCycle], s)
              && s.tiles == [] && !QuietIssue(s, NEXT_ONE)
              && Leads(TINY, s, [IssueTile(NEXT_ONE), OneCycle], t) && StepTo(TINY, t, OneCycle) == FillFails
  {
    hide StepTo, Leads, Settling, QuietIssue, Both;
    NotSettling();
    MatrixDispatched();
    MatrixStarts();
    VectorStarts();
    TileOvertaken();
    FlushesWriter();
    var es, states := [IssueTile(OVERTAKING), OneCycle, OneCycle, OneCycle, OneCycle],
      [Start(0, 0), RUN_1, RUN_2, RUN_3, RUN_4, RUN_5];
    IssuedAs(Start(0, 0), OVERTAKING);
    PathLeads(TINY, states, es);
    assert states[|es|] == RUN_5;
    var t := Flushing();
  }

  lemma Flushing() returns (t: State)
    ensures Leads(TINY, RUN_5, [IssueTile(NEXT_ONE), OneCycle], t) && StepTo(TINY, t, OneCycle) == FillFails
  {
    hide StepTo, Leads, Both;
    var s := WithNext(RUN_5);
    t := s.(core := Later(s.core));
    NextIssued(RUN_5, CLEARED, Both(true));
    CycleIdles(TINY, s);
    MatrixFindsNothing(t);
    PathLeads(TINY, [RUN_5, s, t], [IssueTile(NEXT_ONE), OneCycle]);
    assert [RUN_5, s, t][|[IssueTile(NEXT_ONE), OneCycle]|] == t;
  }
}
