/** Single steps of a core with its tiles worked out, from which concrete runs are made. ONNXim/src/Core.cc:65-196. */
module TileSteps {
  import opened Options
  import opened Scratchpad
  import opened Systolic
  import opened Tiles
  import opened CoreSteps

  /** The events lead through these states, one after the other. */
  ghost predicate Path(k: Setup, states: seq<State>, es: seq<TileEvent>)
    requires k.Valid()
  {
    |states| == |es| + 1 && forall i :: 0 <= i < |es| ==>
      Allowed(states[i], es[i]) && StepTo(k, states[i], es[i]) == Goes(states[i + 1])
  }

  lemma {:induction false} PathLeads(k: Setup, states: seq<State>, es: seq<TileEvent>)
    requires k.Valid() && Path(k, states, es)
    ensures Leads(k, states[0], es, states[|es|])
    decreases |es|
  {
    hide Allowed, StepTo;
    if es != [] {
      assert Allowed(states[0], es[0]) && StepTo(k, states[0], es[0]) == Goes(states[0 + 1]);
      forall i | 0 <= i < |es[1..]|
        ensures Allowed(states[1..][i], es[1..][i]) && StepTo(k, states[1..][i], es[1..][i]) == Goes(states[1..][i + 1])
      {
        assert Allowed(states[i + 1], es[i + 1]) && StepTo(k, states[i + 1], es[i + 1]) == Goes(states[i + 1 + 1]);
      }
      PathLeads(k, states[1..], es[1..]);
    }
  }

  // Dispatches ----------------------------------------------------------------------------------------

  /** The tile has nothing left to dispatch, or cannot yet dispatch it. */
  predicate Blocked(k: Setup, s: State, slot: Slot) {
    slot.Dispatched() || (!Enters(k, s.core, slot.InstAt(slot.next)) && !slot.InstAt(slot.next).opcode.MovIn?)
  }

  predicate CanTake(k: Setup, s: State, slot: Slot) {
    !slot.Dispatched() && Enters(k, s.core, slot.InstAt(slot.next))
  }

  lemma {:induction false} NothingToDispatch(k: Setup, s: State, turn: nat)
    requires forall n :: 0 <= n < |s.tiles| ==> Blocked(k, s, s.tiles[n])
    ensures DispatchFrom(k, s, turn) == Goes(s)
    decreases |s.tiles| - turn
  {
    hide Enters, Pick;
    if turn < |s.tiles| {
      assert Blocked(k, s, s.tiles[Pick(turn, s.rr, |s.tiles|)]);
      NothingToDispatch(k, s, turn + 1);
    }
  }

  /** The first tile in turn dispatches. */
  lemma FirstDispatches(k: Setup, s: State)
    requires s.tiles != [] && s.rr == 0 && CanTake(k, s, s.tiles[0])
    ensures DispatchFrom(k, s, 0) == Goes(Taken(k, s, 0))
  {
    hide Enters, Dispatch;
    FirstPick(|s.tiles|);
  }

  lemma FirstPick(n: nat)
    requires n > 0
    ensures Pick(0, 0, n) == 0 && (n == 2 ==> Pick(1, 0, n) == 1)
  {
  }

  /** The first is held up, and the second one dispatches. */
  lemma SecondDispatches(k: Setup, s: State)
    requires |s.tiles| == 2 && s.rr == 0 && Blocked(k, s, s.tiles[0]) && CanTake(k, s, s.tiles[1])
    ensures DispatchFrom(k, s, 0) == Goes(Taken(k, s, 1))
  {
    hide Enters, Dispatch, Pick;
    FirstPick(2);
    assert DispatchFrom(k, s, 1) == Goes(Taken(k, s, 1));
  }

  // Retirements and cycles ----------------------------------------------------------------------------

  lemma NoneRetires(s: State)
    requires forall n :: 0 <= n < |s.tiles| ==> !IsDone(s, s.tiles[n])
    ensures Retired(s) == s
  {
    hide IsDone;
  }

  lemma FirstRetires(s: State)
    requires s.tiles != [] && IsDone(s, s.tiles[0])
    ensures Retired(s) == s.(tiles := s.tiles[1..], finished := s.finished + [s.tiles[0]])
  {
    hide IsDone;
    assert Without(s.tiles, 0) == s.tiles[1..];
  }

  lemma SecondRetires(s: State)
    requires |s.tiles| == 2 && !IsDone(s, s.tiles[0]) && IsDone(s, s.tiles[1])
    ensures Retired(s) == s.(tiles := [s.tiles[0]], finished := s.finished + [s.tiles[1]])
  {
    hide IsDone;
    assert FirstDone(s, 1) == 1;
    assert Without(s.tiles, 1) == [s.tiles[0]];
  }

  lemma CycleIs(k: Setup, s: State, c: Core, d: State)
    requires k.Valid() && Tick(k, s.core) == Next(c) && DispatchFrom(k, s.(core := c), 0) == Goes(d)
    ensures StepTo(k, s, OneCycle) == Goes(Retired(d))
  {
    hide Tick, DispatchFrom, Retired;
  }

  /** With everything dispatched and every unit waiting only time passes. */
  lemma CycleIdles(k: Setup, s: State)
    requires k.Valid() && PipeWaits(s.core) && VectorWaits(s.core)
    requires s.core.ld == [] && s.core.ex == [] && s.core.st == []
    requires forall n :: 0 <= n < |s.tiles| ==> s.tiles[n].Dispatched() && s.tiles[n].tile.id !in s.core.marked
    ensures StepTo(k, s, OneCycle) == Goes(s.(core := Later(s.core)))
  {
    IdleTick(k, s.core);
    hide Tick, StepTo, Retired, DispatchFrom;
    NothingToDispatch(k, s.(core := Later(s.core)), 0);
    CycleIs(k, s, Later(s.core), s.(core := Later(s.core)));
    NoneRetires(s.(core := Later(s.core)));
  }

  // An array of one element, and instructions for it --------------------------------------------------

  const TINY := Setup(1, 1, Config(64, 1), Config(64, 1))

  const MATRIX := Inst(Gemm, ACCUM_SPAD_BASE, [], false, 0, 0, 1, 4, false, false, 0)
  const VECTOR := Inst(VectorOp(1), ACCUM_SPAD_BASE + 1, [], false, 0, 0, 1, 4, false, false, 0)

  /** The state after an issue that continues nothing, to an idle core or next to one tile. */
  function WithTile(s: State, t: Tile, half: BufferId): State {
    var slot := Slot(t, half, half, 0);
    s.(tiles := s.tiles + [slot], layer := t.layer, fusedOp := t.fusedOp, last := Some(slot), lastContinued := false,
       given := s.given + multiset{t})
  }

  lemma IssuedAs(s: State, t: Tile)
    requires s.core == RESET && HasRoom(s) && !t.accum && !t.skip
    requires |s.tiles| == 1 ==> s.tiles[0].spadId == s.tiles[0].accumSpadId == 1
    ensures StepTo(TINY, s, IssueTile(t)) == Goes(WithTile(s, t, if s.tiles == [] then 1 else 0))
  {
    var half := if s.tiles == [] then 1 else 0;
    assert RESET.banks.spad[half := CLEARED] == RESET.banks.spad;
    assert RESET.banks.accum[half := CLEARED] == RESET.banks.accum;
  }

  /** A compute instruction that reads nothing can be dispatched once its unit has room. */
  lemma CanTakeCompute(s: State, slot: Slot)
    requires !slot.Dispatched() && s.core.ex == [] && slot.InstAt(slot.next).srcs == []
    requires match slot.InstAt(slot.next).opcode
             case Gemm => s.core.pipe == []
             case VectorOp(_) => s.core.vector == []
             case _ => false
    ensures CanTake(TINY, s, slot)
  {
  }

  lemma TakenCompute(s: State, n: nat)
    requires n < |s.tiles| && CanTake(TINY, s, s.tiles[n]) && s.core.ex == []
    requires var op := s.tiles[n].InstAt(s.tiles[n].next).opcode; !op.MovIn? && !op.MovOut?
    ensures var slot := s.tiles[n];
            Taken(TINY, s, n) == s.(core := s.core.(ex := [slot.InstAt(slot.next)]),
                                    tiles := s.tiles[n := slot.(next := slot.next + 1)], rr := n)
  {
    hide CanIssue;
  }

  lemma MatrixLaunch(c: Core, m: Inst, b: Banks)
    requires m.opcode == Gemm && m.computeSize == 4 && m.srcs == [] && c.ex == [m] && c.ld == [] && c.st == []
    requires c.pipe == [] && VectorWaits(c) && CanReserve(TINY, c.banks, m) && Reserve(TINY, c.banks, m) == b
    ensures var f := Flying(m, c.cycle, c.cycle + 4);
            Tick(TINY, c) == Next(Later(c.(pipe := [f], issued := c.issued + [f], issues := c.issues + 1, ex := [],
                                           banks := b)))
  {
    assert CanIssue(TINY, c, m);
    LaunchTick(TINY, c, m);
    hide Tick, CanReserve, Reserve, CanIssue;
  }

  lemma VectorLaunch(c: Core, v: Inst, b: Banks)
    requires v.opcode == VectorOp(1) && v.srcs == [] && c.ex == [v] && c.ld == [] && c.st == []
    requires PipeWaits(c) && c.vector == [] && CanReserve(TINY, c.banks, v) && Reserve(TINY, c.banks, v) == b
    ensures Tick(TINY, c) == Next(Later(c.(vector := [Flying(v, c.cycle, c.cycle + 1)], ex := [], banks := b)))
  {
    assert CanIssue(TINY, c, v);
    LaunchTick(TINY, c, v);
    hide Tick, CanReserve, Reserve, CanIssue;
  }

  lemma VectorFinish(c: Core, f: Flying, b: Banks)
    requires c.vector == [f] && f.finish <= c.cycle && PipeWaits(c) && c.ex == [] && c.ld == [] && c.st == []
    requires CanFill(c.banks, Dest(f.inst)) && FilledAt(c.banks, Dest(f.inst)) == b
    ensures Tick(TINY, c) == Next(Later(c.(vector := [], banks := b, marked := Mark(c.marked, f.inst),
                                           vectorDone := c.vectorDone + [Done(f, c.cycle)])))
  {
    VectorTick(TINY, c);
    hide Tick, CanFill, FilledAt, Dest;
  }

  /** Banks with one location of the accumulator in a half of its own, written once if `valid`, or not yet. */
  function Holding(b: Banks, half: BufferId, address: nat, valid: bool): Banks {
    b.With(Loc(true, half, address), Half(map[address := Entry(valid, 1, if valid then 0 else 1)], 1))
  }

  lemma ReserveHolds(b: Banks, i: Inst, half: BufferId)
    requires i.dest >= ACCUM_SPAD_BASE && i.accumSpadId == half && i.size == 1 && !i.zeroInit
    requires b.accum[half] == CLEARED
    ensures CanReserve(TINY, b, i) && Reserve(TINY, b, i) == Holding(b, half, i.dest, false)
  {
  }

  lemma FillHolds(b: Banks, half: BufferId, address: nat)
    ensures var l, b1 := Loc(true, half, address), Holding(b, half, address, false);
            CanFill(b1, l) && FilledAt(b1, l) == Holding(b, half, address, true)
  {
    var l, b1, b2 := Loc(true, half, address), Holding(b, half, address, false), Holding(b, half, address, true);
    assert Filled(b1.At(l), address).table == b2.At(l).table;
    assert b1.accum[half := b2.At(l)] == b2.accum;
  }

  // A tile that follows -------------------------------------------------------------------------------

  /** The tile that is issued next; it gets the same halves. */
  const NEXT_ONE := Tile(8, 2, 2, false, true, [])

  /** The state after its issue. */
  function WithNext(s: State): State {
    var slot := Slot(NEXT_ONE, 1, 1, 0);
    s.(core := s.core.(banks := RESET.banks), finished := s.finished + [slot], layer := 2, fusedOp := 2,
       last := Some(slot), lastContinued := false, given := s.given + multiset{NEXT_ONE})
  }

  /** Banks with nothing in the halves 0. */
  function Ones(spad: Half, accum: Half): Banks {
    Banks([CLEARED, spad], [CLEARED, accum])
  }

  lemma NextIssued(s: State, spad: Half, accum: Half)
    requires s.tiles == [] && s.core.banks == Ones(spad, accum)
    ensures StepTo(TINY, s, IssueTile(NEXT_ONE)) == Goes(WithNext(s))
  {
    assert Ones(spad, accum).With(Loc(false, 1, 0), CLEARED) == Ones(CLEARED, accum);
    assert Ones(CLEARED, accum).With(Loc(true, 1, 0), CLEARED) == RESET.banks;
  }
}
