/** Which tile goes next, and when it leaves. ONNXim/src/Core.cc:65-196. */
module TileLedger {
  import opened Options
  import opened Scratchpad
  import opened Systolic
  import opened Tiles
  import opened TileSteps
  import opened CoreLedger

  // Issue ---------------------------------------------------------------------------------------------

  /** The halves of a new tile: of the scratchpad the one that no tile in flight has, half 1 if there is none; of the
      accumulator likewise, but the other one if it continues the tile issued last. */
  lemma HalvesOf(s: State, t: Tile)
    requires |s.tiles| <= 1
    ensures var slot, keeps := SlotFor(s, t), t.accum && t.layer == s.layer && t.fusedOp == s.fusedOp;
            && slot.tile == t && slot.next == 0
            && slot.spadId == (if s.tiles == [] then 1 else 1 - s.tiles[0].spadId)
            && slot.accumSpadId == (if s.tiles == [] then (if keeps then 0 else 1)
                                    else if keeps then s.tiles[0].accumSpadId else 1 - s.tiles[0].accumSpadId)
  {
  }

  // Dispatch ------------------------------------------------------------------------------------------

  /** The tile whose turn it is after `turn` others, counted from the one that dispatched last. */
  function InTurn(s: State, turn: nat): Slot
    requires s.tiles != []
  {
    s.tiles[(s.rr + turn) % |s.tiles|]
  }

  ghost predicate AllBlocked(k: Setup, s: State, from: nat, turn: nat)
    requires s.tiles != []
  {
    forall m: nat :: from <= m < turn ==> Blocked(k, s, InTurn(s, m))
  }

  /** The instruction joins the queue of its kind. */
  function Queued(c: Core, i: Inst): Core {
    match i.opcode
    case MovIn => c.(ld := c.ld + [i])
    case MovOut => c.(st := c.st + [i])
    case _ => c.(ex := c.ex + [i])
  }

  /** What is dispatched carries its tile's halves and identity, and is marked if it is the last one. */
  lemma InstIs(slot: Slot, j: nat)
    requires j < |slot.tile.program|
    ensures var x, i := slot.tile.program[j], slot.InstAt(j);
            && i == x.(spadId := i.spadId, accumSpadId := i.accumSpadId, last := i.last, tile := i.tile)
            && i.spadId == slot.spadId && i.accumSpadId == slot.accumSpadId && i.tile == slot.tile.id
            && (i.last <==> j + 1 == |slot.tile.program|)
  {
  }

  lemma TakenIs(k: Setup, s: State, n: nat)
    requires n < |s.tiles| && CanTake(k, s, s.tiles[n])
    ensures var slot := s.tiles[n];
            Taken(k, s, n) == s.(core := Queued(s.core, slot.InstAt(slot.next)),
                                 tiles := s.tiles[n := slot.(next := slot.next + 1)], rr := n)
  {
    hide CanAllocate, Ready, CanIssue;
  }

  /** Every tile from one turn to before another was blocked; then the walk ends with this verdict, with the next tile
      dispatching, with a load that the scratchpad refuses, or with nothing because no tile is left. */
  ghost predicate EndsAt(k: Setup, s: State, from: nat, turn: nat, v: Verdict)
    requires s.tiles != [] && turn <= |s.tiles|
  {
    && AllBlocked(k, s, from, turn)
    && if turn == |s.tiles| then v == Goes(s)
       else
         var n := (s.rr + turn) % |s.tiles|;
         if CanTake(k, s, s.tiles[n]) then v == Goes(Taken(k, s, n))
         else v == AllocationRefuses && !Blocked(k, s, s.tiles[n])
  }

  /** A blocked tile has dispatched everything, or its front instruction is no load and cannot enter its queue. */
  lemma BlockedIff(k: Setup, s: State, slot: Slot)
    ensures Blocked(k, s, slot) <==>
              slot.next >= |slot.tile.program|
              || (!slot.tile.program[slot.next].opcode.MovIn? && !Enters(k, s.core, slot.InstAt(slot.next)))
    ensures CanTake(k, s, slot) <==> slot.next < |slot.tile.program| && Enters(k, s.core, slot.InstAt(slot.next))
  {
    hide Enters;
  }

  lemma {:induction false} WalkEnds(k: Setup, s: State, turn: nat)
    requires s.tiles != [] && turn <= |s.tiles|
    ensures exists m: nat :: turn <= m <= |s.tiles| && EndsAt(k, s, turn, m, DispatchFrom(k, s, turn))
    decreases |s.tiles| - turn
  {
    hide Enters, Taken, Blocked, CanTake, EndsAt, DispatchFrom, Pick;
    if turn == |s.tiles| {
      NoneLeft(k, s);
    } else {
      TurnIs(k, s, turn);
      if Blocked(k, s, s.tiles[(s.rr + turn) % |s.tiles|]) {
        WalkEnds(k, s, turn + 1);
        var m: nat :| turn + 1 <= m <= |s.tiles| && EndsAt(k, s, turn + 1, m, DispatchFrom(k, s, turn + 1));
        LaterTurn(k, s, turn, m);
      }
    }
  }

  lemma NoneLeft(k: Setup, s: State)
    requires s.tiles != []
    ensures EndsAt(k, s, |s.tiles|, |s.tiles|, DispatchFrom(k, s, |s.tiles|))
  {
  }

  /** One dispatch: from the tile that dispatched last on, the first one that is not blocked dispatches its front
      instruction, or stops the program with a load that the scratchpad refuses. */
  lemma DispatchIs(k: Setup, s: State)
    requires s.tiles != []
    ensures exists m: nat :: m <= |s.tiles| && EndsAt(k, s, 0, m, DispatchFrom(k, s, 0))
  {
    hide EndsAt, DispatchFrom;
    WalkEnds(k, s, 0);
  }

  lemma TurnIs(k: Setup, s: State, turn: nat)
    requires turn < |s.tiles|
    ensures var n := (s.rr + turn) % |s.tiles|;
            if Blocked(k, s, s.tiles[n]) then !CanTake(k, s, s.tiles[n])
                                              && DispatchFrom(k, s, turn) == DispatchFrom(k, s, turn + 1)
            else EndsAt(k, s, turn, turn, DispatchFrom(k, s, turn))
  {
    hide Enters, Taken;
  }

  lemma LaterTurn(k: Setup, s: State, turn: nat, m: nat)
    requires turn < m <= |s.tiles| && Blocked(k, s, InTurn(s, turn))
    requires EndsAt(k, s, turn + 1, m, DispatchFrom(k, s, turn + 1))
    requires DispatchFrom(k, s, turn) == DispatchFrom(k, s, turn + 1)
    ensures EndsAt(k, s, turn, m, DispatchFrom(k, s, turn))
  {
    hide Blocked, CanTake, Taken, DispatchFrom;
    forall j: nat | turn <= j < m
      ensures Blocked(k, s, InTurn(s, j))
    {
      if j > turn {
        assert turn + 1 <= j < m;
      }
    }
  }

  // Retirement ----------------------------------------------------------------------------------------

  /** A dispatch leaves the tiles that are done dispatching alone, and marks none. */
  lemma DispatchSpares(k: Setup, s: State, n: nat)
    requires n < |s.tiles| && DispatchFrom(k, s, 0).Goes?
    ensures var d := DispatchFrom(k, s, 0).state;
            && |d.tiles| == |s.tiles| && d.finished == s.finished && d.core.marked == s.core.marked
            && d.tiles[n].tile == s.tiles[n].tile && (s.tiles[n].Dispatched() ==> d.tiles[n] == s.tiles[n])
  {
    hide DispatchFrom, Taken, CanTake, Blocked, AllBlocked;
    DispatchIs(k, s);
    var m: nat :| m <= |s.tiles| && EndsAt(k, s, 0, m, DispatchFrom(k, s, 0));
    if m < |s.tiles| {
      var j := (s.rr + m) % |s.tiles|;
      assert CanTake(k, s, s.tiles[j]);
      BlockedIff(k, s, s.tiles[j]);
      TakenIs(k, s, j);
    }
  }

  /** The first of the tiles leaves in the cycle in which its last instruction is marked, and the second one does if
      the first does not leave instead. What leaves goes to the back of the finished tiles. */
  lemma DoneLeaves(k: Setup, s: State, n: nat)
    requires k.Valid() && |s.tiles| <= 2 && n < |s.tiles| && Cycled(k, s).Goes?
    requires s.tiles[n].Dispatched() && s.tiles[n].tile.id in Tick(k, s.core).core.marked
    ensures var t := Cycled(k, s).state;
            && |t.finished| == |s.finished| + 1 && t.finished[..|s.finished|] == s.finished
            && |t.tiles| == |s.tiles| - 1
            && (t.finished[|s.finished|] == s.tiles[n]
                || (n == 1 && t.finished[|s.finished|].tile == s.tiles[0].tile && t.tiles == [s.tiles[1]]))
  {
    hide DispatchFrom, Tick;
    var c := Tick(k, s.core).core;
    var s1 := s.(core := c);
    DispatchSpares(k, s1, n);
    DispatchSpares(k, s1, 0);
    DoneRetires(DispatchFrom(k, s1, 0).state, n);
  }

  lemma DoneRetires(d: State, n: nat)
    requires |d.tiles| <= 2 && n < |d.tiles| && IsDone(d, d.tiles[n])
    ensures var t := Retired(d);
            && (t.finished == d.finished + [d.tiles[n]]
                || (n == 1 && t.finished == d.finished + [d.tiles[0]] && t.tiles == [d.tiles[1]]))
            && |t.tiles| == |d.tiles| - 1
  {
  }

  /** A tile that is not done stays, whatever a cycle does. */
  lemma NotDoneStays(k: Setup, s: State, n: nat)
    requires k.Valid() && |s.tiles| <= 2 && n < |s.tiles| && Cycled(k, s).Goes?
    requires s.tiles[n].tile.id !in Tick(k, s.core).core.marked
    ensures exists j: nat :: j < |Cycled(k, s).state.tiles| && Cycled(k, s).state.tiles[j].tile == s.tiles[n].tile
  {
    hide DispatchFrom, Tick;
    var s1 := s.(core := Tick(k, s.core).core);
    DispatchSpares(k, s1, n);
    var d, t := DispatchFrom(k, s1, 0).state, Cycled(k, s).state;
    NotDoneKept(d, n);
    var j: nat :| j < |Retired(d).tiles| && Retired(d).tiles[j] == d.tiles[n];
    assert t.tiles[j].tile == s.tiles[n].tile;
  }

  lemma NotDoneKept(d: State, n: nat)
    requires |d.tiles| <= 2 && n < |d.tiles| && !IsDone(d, d.tiles[n])
    ensures exists j: nat :: j < |Retired(d).tiles| && Retired(d).tiles[j] == d.tiles[n]
  {
    var m := FirstDone(d, 0);
    if m == |d.tiles| || m > n {
      assert Retired(d).tiles[n] == d.tiles[n];
    } else {
      assert Retired(d).tiles[n - 1] == d.tiles[n];
    }
  }

  // Handing back --------------------------------------------------------------------------------------

  function Pops(es: seq<TileEvent>): nat {
    if es == [] then 0 else (if es[0].PopTile? then 1 else 0) + Pops(es[1..])
  }

  /** Only a pop takes from the finished tiles, and only the first; everything else adds at the end. */
  lemma StepFinished(k: Setup, s: State, e: TileEvent)
    requires k.Valid() && StepTo(k, s, e).Goes?
    ensures var t := StepTo(k, s, e).state;
            if e.PopTile? && s.finished != [] then
              s.finished == [s.finished[0]] + t.finished && t.returned == s.returned + multiset{s.finished[0].tile}
            else s.finished <= t.finished && t.returned == s.returned
  {
    hide Tick, DispatchFrom, Respond, Issued, Retired;
    match e
    case IssueTile(t) => IssuedFinished(s, t);
    case OneCycle =>
      var s1 := s.(core := Tick(k, s.core).core);
      DispatchTiles(k, s1, 0);
      RetiredFinished(DispatchFrom(k, s1, 0).state);
    case _ =>
  }

  lemma IssuedFinished(s: State, t: Tile)
    ensures s.finished <= Issued(s, t).finished && Issued(s, t).returned == s.returned
  {
    hide FlushedFor, SlotFor;
  }

  lemma RetiredFinished(s: State)
    ensures s.finished <= Retired(s).finished && Retired(s).returned == s.returned
  {
    hide FirstDone, Without;
  }

  /** Over every run a finished tile with n before it is handed back by the (n + 1)-st pop, and not before. */
  lemma {:induction false} HandedBackInTurn(k: Setup, s: State, es: seq<TileEvent>, t: State, n: nat)
    requires k.Valid() && Leads(k, s, es, t) && n < |s.finished|
    ensures s.returned <= t.returned
    ensures if Pops(es) <= n then n - Pops(es) < |t.finished| && t.finished[n - Pops(es)] == s.finished[n]
            else s.returned + multiset{s.finished[n].tile} <= t.returned
    decreases |es|
  {
    hide StepTo, Allowed;
    if es != [] {
      StepFinished(k, s, es[0]);
      var u := StepTo(k, s, es[0]).state;
      if es[0].PopTile? && n == 0 {
        ReturnedGrows(k, u, es[1..], t);
      } else if es[0].PopTile? {
        assert u.finished[n - 1] == s.finished[n];
        HandedBackInTurn(k, u, es[1..], t, n - 1);
      } else {
        HandedBackInTurn(k, u, es[1..], t, n);
      }
    }
  }

  lemma {:induction false} ReturnedGrows(k: Setup, s: State, es: seq<TileEvent>, t: State)
    requires k.Valid() && Leads(k, s, es, t)
    ensures s.returned <= t.returned
    decreases |es|
  {
    hide StepTo, Allowed;
    if es != [] {
      StepFinished(k, s, es[0]);
      ReturnedGrows(k, StepTo(k, s, es[0]).state, es[1..], t);
    }
  }
}
