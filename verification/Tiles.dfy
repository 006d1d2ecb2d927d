/** The tiles a core works on, the scratchpad halves they own and the programs they dispatch:
    ONNXim/src/Core.cc:32-34, 65-196. */
module Tiles {
  import opened Options
  import opened Scratchpad
  import opened Systolic

  datatype Tile = Tile(id: nat, layer: int, fusedOp: int, accum: bool, skip: bool, program: seq<Inst>)

  /** A tile, the half of each scratchpad it works in, and how many of its instructions it has dispatched. */
  datatype Slot = Slot(tile: Tile, spadId: BufferId, accumSpadId: BufferId, next: nat) {
    predicate Dispatched() { next >= |tile.program| }

    /** The instruction as it is dispatched. */
    function InstAt(j: nat): Inst
      requires j < |tile.program|
    {
      tile.program[j].(spadId := spadId, accumSpadId := accumSpadId, last := j == |tile.program| - 1, tile := tile.id)
    }
  }

  /** `last` is the tile issued last and `lastContinued` whether it added to the sums of the one before; these
      two, and what was issued and handed back in all, are history. */
  datatype State = State(core: Core, tiles: seq<Slot>, finished: seq<Slot>, rr: nat, layer: int, fusedOp: int,
                         last: Option<Slot>, lastContinued: bool, given: multiset<Tile>, returned: multiset<Tile>)

  /** The core goes on, or the program stops. */
  datatype Verdict = Goes(state: State) | AllocationRefuses | FillFails

  // Operations on the state ---------------------------------------------------------------------------

  predicate HasRoom(s: State) {
    |s.tiles| < 2
  }

  /** The tile adds to the sums of the one issued before it. */
  predicate Continues(s: State, t: Tile) {
    t.accum && s.layer == t.layer && s.fusedOp == t.fusedOp
  }

  function Other(b: BufferId): BufferId { (b + 1) % 2 }

  function SlotFor(s: State, t: Tile): Slot {
    var spadId := if |s.tiles| == 1 then s.tiles[0].spadId else 0;
    var accumId := if |s.tiles| == 1 then s.tiles[0].accumSpadId else 0;
    Slot(t, Other(spadId), if Continues(s, t) then accumId else Other(accumId), 0)
  }

  /** The core after the flushes of an issue. */
  function FlushedFor(s: State, t: Tile): Core {
    var slot := SlotFor(s, t);
    var c := Flushed(s.core, false, slot.spadId);
    if Continues(s, t) then c else Flushed(c, true, slot.accumSpadId)
  }

  function Issued(s: State, t: Tile): State {
    var slot := SlotFor(s, t);
    s.(core := FlushedFor(s, t), tiles := if t.skip then s.tiles else s.tiles + [slot],
       finished := if t.skip then s.finished + [slot] else s.finished, layer := t.layer, fusedOp := t.fusedOp,
       last := Some(slot), lastContinued := Continues(s, t), given := s.given + multiset{t})
  }

  function Pick(turn: nat, rr: nat, n: nat): (i: nat)
    requires n > 0
    ensures i < n
  {
    (turn + rr) % n
  }

  /** One tile dispatches its front instruction: the first that can, from the round robin's turn on. */
  function DispatchFrom(k: Setup, s: State, turn: nat): Verdict
    decreases |s.tiles| - turn
  {
    if turn >= |s.tiles| then Goes(s)
    else
      var n := Pick(turn, s.rr, |s.tiles|);
      var slot := s.tiles[n];
      if slot.Dispatched() then DispatchFrom(k, s, turn + 1)
      else if Enters(k, s.core, slot.InstAt(slot.next)) then Goes(Taken(k, s, n))
      else if slot.InstAt(slot.next).opcode.MovIn? then AllocationRefuses
      else DispatchFrom(k, s, turn + 1)
  }

  function Taken(k: Setup, s: State, n: nat): State
    requires n < |s.tiles| && !s.tiles[n].Dispatched() && Enters(k, s.core, s.tiles[n].InstAt(s.tiles[n].next))
  {
    var slot := s.tiles[n];
    s.(core := Dispatch(k, s.core, slot.InstAt(slot.next)).core,
       tiles := s.tiles[n := slot.(next := slot.next + 1)], rr := n)
  }

  predicate IsDone(s: State, slot: Slot) {
    slot.Dispatched() && slot.tile.id in s.core.marked
  }

  /** The first tile from n on that has dispatched everything and whose last instruction has finished. */
  function FirstDone(s: State, n: nat): (r: nat)
    requires n <= |s.tiles|
    ensures n <= r <= |s.tiles| && (r < |s.tiles| ==> IsDone(s, s.tiles[r])) && forall j :: n <= j < r ==>
            !IsDone(s, s.tiles[j])
    decreases |s.tiles| - n
  {
    if n == |s.tiles| || IsDone(s, s.tiles[n]) then n else FirstDone(s, n + 1)
  }

  function Without(tiles: seq<Slot>, n: nat): seq<Slot>
    requires n < |tiles|
  {
    tiles[..n] + tiles[n + 1..]
  }

  function Retired(s: State): State {
    var n := FirstDone(s, 0);
    if n == |s.tiles| then s
    else s.(tiles := Without(s.tiles, n), finished := s.finished + [s.tiles[n]])
  }

  /** The core's share of a cycle, then one dispatch, then one retirement. */
  function Cycled(k: Setup, s: State): Verdict
    requires k.Valid()
  {
    match Tick(k, s.core)
    case BadFill => FillFails
    case Refused => AllocationRefuses
    case Next(c) =>
      var v := DispatchFrom(k, s.(core := c), 0);
      if v.Goes? then Goes(Retired(v.state)) else v
  }

  function Popped(s: State): State {
    if s.finished == [] then s
    else s.(finished := s.finished[1..], returned := s.returned + multiset{s.finished[0].tile})
  }

  // Runs -----------------------------------------------------------------------------------------------

  datatype TileEvent = IssueTile(tile: Tile) | OneCycle | ReadAnswered(loc: Loc) | WriteAnswered | PopTile

  /** A tile is issued when there is room, under an identity of its own. */
  ghost predicate Allowed(s: State, e: TileEvent) {
    e.IssueTile? ==> HasRoom(s) && (!e.tile.skip ==> Fresh(s, e.tile.id))
  }

  ghost predicate Fresh(s: State, id: nat) {
    id !in s.core.marked && forall n :: 0 <= n < |s.tiles| ==> s.tiles[n].tile.id != id
  }

  function StepTo(k: Setup, s: State, e: TileEvent): Verdict
    requires k.Valid()
  {
    match e
    case IssueTile(t) => Goes(Issued(s, t))
    case OneCycle => Cycled(k, s)
    case ReadAnswered(l) => var o := Respond(s.core, l); if o.Next? then Goes(s.(core := o.core)) else FillFails
    case WriteAnswered => Goes(s.(core := Written(s.core)))
    case PopTile => Goes(Popped(s))
  }

  ghost predicate Leads(k: Setup, s: State, es: seq<TileEvent>, t: State)
    requires k.Valid()
    decreases |es|
  {
    if es == [] then s == t
    else Allowed(s, es[0]) && StepTo(k, s, es[0]).Goes? && Leads(k, StepTo(k, s, es[0]).state, es[1..], t)
  }

  /** The current layer and operation start uninitialised. */
  function Start(layer: int, fusedOp: int): State {
    State(RESET, [], [], 0, layer, fusedOp, None, false, multiset{}, multiset{})
  }

  // Whose sums a half holds ---------------------------------------------------------------------------

  /** The tile issued last shares its half of the accumulator with the other one in flight exactly if it
      continued the sums of the one before it. */
  ghost predicate Sharing(s: State) {
    s.last.Some? ==>
      var last := s.last.value;
      && s.layer == last.tile.layer && s.fusedOp == last.tile.fusedOp
      && (|s.tiles| == 2 ==>
            && s.tiles[1].tile == last.tile && s.tiles[1].accumSpadId == last.accumSpadId
            && (s.tiles[0].accumSpadId == last.accumSpadId <==> s.lastContinued))
      && (|s.tiles| == 1 ==>
            if s.tiles[0].tile == last.tile then s.tiles[0].accumSpadId == last.accumSpadId
            else s.tiles[0].accumSpadId == last.accumSpadId <==> s.lastContinued)
  }

  ghost predicate Slots(s: State) {
    && |s.tiles| <= 2
    && (|s.tiles| == 2 ==> s.tiles[0].tile.id != s.tiles[1].tile.id && s.tiles[0].spadId != s.tiles[1].spadId)
    && (forall n :: 0 <= n < |s.tiles| ==> !s.tiles[n].tile.skip)
    && (s.last.None? ==> s.tiles == [])
  }

  lemma IssuedSharing(s: State, t: Tile)
    requires Slots(s) && Sharing(s) && HasRoom(s) && (!t.skip ==> Fresh(s, t.id))
    ensures Slots(Issued(s, t)) && Sharing(Issued(s, t))
  {
    hide FlushedFor;
  }

  lemma RetiredSharing(s: State)
    requires Slots(s) && Sharing(s)
    ensures Slots(Retired(s)) && Sharing(Retired(s))
  {
  }

  /** A dispatch touches neither the tiles nor their halves. */
  lemma DispatchSharing(k: Setup, s: State, turn: nat)
    requires Slots(s) && Sharing(s) && DispatchFrom(k, s, turn).Goes?
    ensures Slots(DispatchFrom(k, s, turn).state) && Sharing(DispatchFrom(k, s, turn).state)
  {
    hide Pick, Enters, Dispatch, Slots, Sharing;
    DispatchTiles(k, s, turn);
    SameSharing(s, DispatchFrom(k, s, turn).state);
  }

  /** The tiles without how far they have come. */
  function Places(tiles: seq<Slot>): seq<Slot> {
    seq(|tiles|, n requires 0 <= n < |tiles| => tiles[n].(next := 0))
  }

  lemma {:induction false} DispatchTiles(k: Setup, s: State, turn: nat)
    requires DispatchFrom(k, s, turn).Goes?
    ensures var t := DispatchFrom(k, s, turn).state;
            && Places(t.tiles) == Places(s.tiles) && t.finished == s.finished && t.layer == s.layer
            && t.fusedOp == s.fusedOp
            && t.last == s.last && t.lastContinued == s.lastContinued && t.given == s.given && t.returned == s.returned
    decreases |s.tiles| - turn
  {
    hide Enters, Pick, Dispatch;
    if turn < |s.tiles| {
      var n := Pick(turn, s.rr, |s.tiles|);
      if s.tiles[n].Dispatched() || !Enters(k, s.core, s.tiles[n].InstAt(s.tiles[n].next)) {
        DispatchTiles(k, s, turn + 1);
      }
    }
  }

  lemma SameSharing(s: State, t: State)
    requires Slots(s) && Sharing(s) && Places(t.tiles) == Places(s.tiles)
    requires t.layer == s.layer && t.fusedOp == s.fusedOp && t.last == s.last && t.lastContinued == s.lastContinued
    ensures Slots(t) && Sharing(t)
  {
    assert |Places(s.tiles)| == |s.tiles| && |Places(t.tiles)| == |t.tiles|;
    forall n | 0 <= n < |s.tiles|
      ensures t.tiles[n].(next := 0) == s.tiles[n].(next := 0)
    {
      assert Places(t.tiles)[n] == Places(s.tiles)[n];
    }
  }

  lemma StepSharing(k: Setup, s: State, e: TileEvent)
    requires k.Valid() && Slots(s) && Sharing(s) && Allowed(s, e) && StepTo(k, s, e).Goes?
    ensures Slots(StepTo(k, s, e).state) && Sharing(StepTo(k, s, e).state)
  {
    hide Slots, Sharing, Tick, DispatchFrom, Retired, Issued, Respond, Places;
    match e
    case IssueTile(t) => IssuedSharing(s, t);
    case OneCycle =>
      var s1 := s.(core := Tick(k, s.core).core);
      SameSharing(s, s1);
      DispatchSharing(k, s1, 0);
      RetiredSharing(DispatchFrom(k, s1, 0).state);
    case ReadAnswered(l) => SameSharing(s, StepTo(k, s, e).state);
    case WriteAnswered => SameSharing(s, StepTo(k, s, e).state);
    case PopTile => SameSharing(s, StepTo(k, s, e).state);
  }

  lemma {:induction false} RunSharing(k: Setup, s: State, es: seq<TileEvent>, t: State)
    requires k.Valid() && Slots(s) && Sharing(s) && Leads(k, s, es, t)
    ensures Slots(t) && Sharing(t)
    decreases |es|
  {
    hide Slots, Sharing, StepTo, Allowed;
    if es != [] {
      StepSharing(k, s, es[0]);
      RunSharing(k, StepTo(k, s, es[0]).state, es[1..], t);
    }
  }

  /** In every reachable state, a tile that continues the sums of the tile issued last gets that tile's half of
      the accumulator exactly if the tile in flight has it, or with none in flight if it is half 0. With a tile
      in flight, that is the case exactly if it is the last one itself, or the last one had continued too. */
  lemma AccumulatorKept(k: Setup, layer: int, fusedOp: int, es: seq<TileEvent>, s: State, t: Tile)
    requires k.Valid() && Leads(k, Start(layer, fusedOp), es, s) && s.last.Some? && HasRoom(s)
    ensures Continues(s, t) <==>
              t.accum && t.layer == s.last.value.tile.layer && t.fusedOp == s.last.value.tile.fusedOp
    ensures var last, slot := s.last.value, SlotFor(s, t);
            Continues(s, t) ==>
              && Issued(s, t).core.banks.accum == s.core.banks.accum
              && (slot.accumSpadId == last.accumSpadId <==>
                    if |s.tiles| == 1 then s.tiles[0].accumSpadId == last.accumSpadId else last.accumSpadId == 0)
              && (|s.tiles| == 1 ==>
                    (slot.accumSpadId == last.accumSpadId <==> s.tiles[0].tile == last.tile || s.lastContinued))
  {
    hide Leads;
    RunSharing(k, Start(layer, fusedOp), es, s);
  }

  /** An issue leaves both halves of the tile in flight as they are, and hands out a cleared scratchpad half. It
      shares the accumulator half of the tile in flight exactly if it continues the tile issued last, whichever
      that is: see AccumulatorKept. */
  lemma IssueSparesOwners(s: State, t: Tile, n: nat)
    requires HasRoom(s) && n < |s.tiles|
    ensures var b, b', owner := s.core.banks, Issued(s, t).core.banks, s.tiles[n];
            && b'.spad[owner.spadId] == b.spad[owner.spadId]
            && b'.accum[owner.accumSpadId] == b.accum[owner.accumSpadId]
            && SlotFor(s, t).spadId != owner.spadId && b'.spad[SlotFor(s, t).spadId] == CLEARED
            && (SlotFor(s, t).accumSpadId == owner.accumSpadId <==> Continues(s, t))
  {
  }

  // Conservation --------------------------------------------------------------------------------------

  function TilesOf(q: seq<Slot>): seq<Tile> {
    seq(|q|, n requires 0 <= n < |q| => q[n].tile)
  }

  /** Every tile issued is in flight, finished or handed back. */
  ghost predicate Conserved(s: State) {
    s.given == multiset(TilesOf(s.tiles)) + multiset(TilesOf(s.finished)) + s.returned
  }

  lemma TilesOfConcat(p: seq<Slot>, q: seq<Slot>)
    ensures TilesOf(p + q) == TilesOf(p) + TilesOf(q)
  {
  }

  lemma SamePlaces(p: seq<Slot>, q: seq<Slot>)
    requires Places(p) == Places(q)
    ensures TilesOf(p) == TilesOf(q)
  {
    assert |Places(p)| == |p| && |Places(q)| == |q|;
    forall n | 0 <= n < |p|
      ensures p[n].tile == q[n].tile
    {
      assert Places(p)[n] == Places(q)[n];
    }
  }

  lemma TilesOfWithout(tiles: seq<Slot>, n: nat)
    requires n < |tiles|
    ensures multiset(TilesOf(tiles)) == multiset(TilesOf(Without(tiles, n))) + multiset{tiles[n].tile}
  {
    assert tiles == tiles[..n] + ([tiles[n]] + tiles[n + 1..]);
    TilesOfConcat(tiles[..n], [tiles[n]] + tiles[n + 1..]);
    TilesOfConcat([tiles[n]], tiles[n + 1..]);
    TilesOfConcat(tiles[..n], tiles[n + 1..]);
    assert TilesOf([tiles[n]]) == [tiles[n].tile];
    hide TilesOf;
  }

  lemma RetiredConserves(s: State)
    requires Conserved(s)
    ensures Conserved(Retired(s))
  {
    hide TilesOf, Without, IsDone;
    var n := FirstDone(s, 0);
    if n < |s.tiles| {
      TilesOfWithout(s.tiles, n);
      TilesOfConcat(s.finished, [s.tiles[n]]);
      OneTileOf(s.tiles[n]);
    }
  }

  lemma OneTileOf(slot: Slot)
    ensures TilesOf([slot]) == [slot.tile]
  {
  }

  lemma IssuedConserves(s: State, t: Tile)
    requires Conserved(s)
    ensures Conserved(Issued(s, t))
  {
    hide FlushedFor, Continues;
    var slot := SlotFor(s, t);
    TilesOfConcat(s.tiles, [slot]);
    TilesOfConcat(s.finished, [slot]);
    assert TilesOf([slot]) == [t];
  }

  lemma PoppedConserves(s: State)
    requires Conserved(s)
    ensures Conserved(Popped(s))
  {
    if s.finished != [] {
      assert s.finished == [s.finished[0]] + s.finished[1..];
      TilesOfConcat([s.finished[0]], s.finished[1..]);
      assert TilesOf([s.finished[0]]) == [s.finished[0].tile];
    }
  }

  lemma StepConserves(k: Setup, s: State, e: TileEvent)
    requires k.Valid() && Conserved(s) && StepTo(k, s, e).Goes?
    ensures Conserved(StepTo(k, s, e).state)
  {
    hide Tick, DispatchFrom, Retired, Issued, Popped, Respond, Places;
    match e
    case IssueTile(t) => IssuedConserves(s, t);
    case OneCycle =>
      var s1 := s.(core := Tick(k, s.core).core);
      var s2 := DispatchFrom(k, s1, 0).state;
      DispatchTiles(k, s1, 0);
      SamePlaces(s1.tiles, s2.tiles);
      RetiredConserves(s2);
    case PopTile => PoppedConserves(s);
    case _ =>
  }

  lemma {:induction false} RunConserves(k: Setup, s: State, es: seq<TileEvent>, t: State)
    requires k.Valid() && Conserved(s) && Leads(k, s, es, t)
    ensures Conserved(t)
    decreases |es|
  {
    hide Conserved, StepTo, Allowed;
    if es != [] {
      StepConserves(k, s, es[0]);
      RunConserves(k, StepTo(k, s, es[0]).state, es[1..], t);
    }
  }

  /** Over every run, whatever the programs of its tiles: at most two tiles are in flight, in different halves of
      the scratchpad, and every tile issued is in flight, finished or handed back, exactly once. */
  lemma EveryRunKeeps(k: Setup, layer: int, fusedOp: int, es: seq<TileEvent>, t: State)
    requires k.Valid() && Leads(k, Start(layer, fusedOp), es, t)
    ensures |t.tiles| <= 2 && (|t.tiles| == 2 ==> t.tiles[0].spadId != t.tiles[1].spadId)
    ensures t.given == multiset(TilesOf(t.tiles)) + multiset(TilesOf(t.finished)) + t.returned
  {
    hide Leads;
    assert Conserved(Start(layer, fusedOp));
    RunSharing(k, Start(layer, fusedOp), es, t);
    RunConserves(k, Start(layer, fusedOp), es, t);
  }

  // The class -----------------------------------------------------------------------------------------

  function Reason(v: Verdict): Status {
    match v case Goes(_) => Running case AllocationRefuses => AllocationRefused case FillFails => FillAssertFails
  }

  class TiledCore {
    const core: SystolicWS
    var tiles: seq<Slot>
    var finishedTiles: seq<Slot>
    var tileRr: nat
    var currentLayerId: int
    var currentFusedOpId: int
    ghost var last: Option<Slot>
    ghost var lastContinued: bool
    ghost var given: multiset<Tile>
    ghost var returned: multiset<Tile>

    ghost predicate Wired()
      reads this, core, core.spad, core.accSpad
    {
      core.Wired()
    }

    ghost function Now(): State
      reads this, core, core.spad, core.accSpad
      requires Wired()
    {
      State(core.State(), tiles, finishedTiles, tileRr, currentLayerId, currentFusedOpId, last, lastContinued, given,
            returned)
    }

    constructor (core: SystolicWS, layer: int, fusedOp: int)
      requires core.Wired() && core.State() == RESET
      ensures this.core == core && Wired() && Now() == Start(layer, fusedOp)
    {
      this.core := core;
      tiles, finishedTiles, tileRr, currentLayerId, currentFusedOpId := [], [], 0, layer, fusedOp;
      last, lastContinued, given, returned := None, false, multiset{}, multiset{};
    }

    /** Chooses the halves of a new tile and flushes those it does not share. */
    method FlushHalves(op: Tile) returns (slot: Slot)
      requires Wired() && HasRoom(Now())
      modifies core.spad, core.accSpad
      ensures Wired() && slot == SlotFor(old(Now()), op)
      ensures Now() == old(Now()).(core := FlushedFor(old(Now()), op))
    {
      ghost var s := Now();
      var spadId: BufferId, accSpadId: BufferId := 0, 0;
      if |tiles| == 1 {
        spadId, accSpadId := tiles[0].spadId, tiles[0].accumSpadId;
      }
      spadId := (spadId + 1) % 2;
      core.spad.Flush(spadId);
      assert core.State() == Flushed(s.core, false, spadId);
      if !op.accum || !(currentLayerId == op.layer && currentFusedOpId == op.fusedOp) {
        accSpadId := (accSpadId + 1) % 2;
        core.accSpad.Flush(accSpadId);
        assert core.State() == Flushed(Flushed(s.core, false, spadId), true, accSpadId);
      }
      slot := Slot(op, spadId, accSpadId, 0);
      hide Flushed;
    }

    /** Files a new tile under the slot it was given. */
    method File(slot: Slot, ghost continued: bool)
      requires Wired()
      modifies this
      ensures Wired() && tiles == (if slot.tile.skip then old(tiles) else old(tiles) + [slot])
      ensures finishedTiles == (if slot.tile.skip then old(finishedTiles) + [slot] else old(finishedTiles))
      ensures currentLayerId == slot.tile.layer && currentFusedOpId == slot.tile.fusedOp && tileRr == old(tileRr)
      ensures last == Some(slot) && lastContinued == continued
      ensures given == old(given) + multiset{slot.tile} && returned == old(returned)
    {
      currentLayerId, currentFusedOpId := slot.tile.layer, slot.tile.fusedOp;
      last, lastContinued, given := Some(slot), continued, given + multiset{slot.tile};
      if slot.tile.skip {
        finishedTiles := finishedTiles + [slot];
        return;
      }
      tiles := tiles + [slot];
    }

    method Issue(op: Tile)
      requires Wired() && HasRoom(Now())
      modifies this, core.spad, core.accSpad
      ensures Wired() && Now() == Issued(old(Now()), op)
    {
      hide FlushedFor, Continues;
      ghost var s := Now();
      var slot := FlushHalves(op);
      assert slot.tile == op;
      hide SlotFor;
      File(slot, Continues(s, op));
      assert core.State() == FlushedFor(s, op);
    }

    /** The loop of the dispatch: the first tile in turn whose front instruction can enter its queue. */
    method DispatchInst() returns (status: Status)
      requires Wired()
      modifies this, core
      ensures Wired() && status == Reason(DispatchFrom(core.k, old(Now()), 0))
      ensures status.Running? ==> Now() == DispatchFrom(core.k, old(Now()), 0).state
    {
      hide Enters, Taken;
      for turn := 0 to |tiles|
        invariant Wired() && Now() == old(Now())
        invariant DispatchFrom(core.k, old(Now()), 0) == DispatchFrom(core.k, old(Now()), turn)
      {
        var n := (turn + tileRr) % |tiles|;
        if tiles[n].next < |tiles[n].tile.program| {
          var taken;
          status, taken := TryDispatch(n);
          if !status.Running? || taken { return; }
        }
      }
      return Running;
    }

    /** One tile tries to dispatch its front instruction. */
    method TryDispatch(n: nat) returns (status: Status, taken: bool)
      requires Wired() && n < |tiles| && !tiles[n].Dispatched()
      modifies this, core
      ensures Wired() && taken == Enters(core.k, old(Now()).core, old(tiles)[n].InstAt(old(tiles)[n].next))
      ensures taken ==> Now() == Taken(core.k, old(Now()), n)
      ensures !taken ==> Now() == old(Now())
      ensures status == if !taken && old(tiles)[n].InstAt(old(tiles)[n].next).opcode.MovIn? then AllocationRefused
              else Running
    {
      hide CanIssue, Ready, CanAllocate;
      var slot := tiles[n];
      status, taken := core.DispatchInst(slot.InstAt(slot.next));
      if taken {
        tiles, tileRr := tiles[n := slot.(next := slot.next + 1)], n;
      }
    }

    method RetireTile()
      requires Wired()
      modifies this
      ensures Wired() && Now() == Retired(old(Now()))
    {
      for n := 0 to |tiles|
        invariant Wired() && Now() == old(Now()) && FirstDone(old(Now()), 0) == FirstDone(old(Now()), n)
      {
        if tiles[n].Dispatched() && tiles[n].tile.id in core.marked {
          finishedTiles := finishedTiles + [tiles[n]];
          tiles := tiles[..n] + tiles[n + 1..];
          return;
        }
      }
    }

    method Cycle() returns (status: Status)
      requires Wired()
      modifies this, core, core.spad, core.accSpad
      ensures Wired() && status == Reason(Cycled(core.k, old(Now())))
      ensures status.Running? ==> Now() == Cycled(core.k, old(Now())).state
    {
      hide Tick, DispatchFrom, Retired;
      status := core.Cycle();
      if !status.Running? { return; }
      status := DispatchInst();
      if !status.Running? { return; }
      RetireTile();
    }

    method PopFinishedTile() returns (tile: Option<Slot>)
      requires Wired()
      modifies this
      ensures Wired() && Now() == Popped(old(Now()))
      ensures tile == if old(finishedTiles) == [] then None else Some(old(finishedTiles)[0])
    {
      if finishedTiles == [] { return None; }
      tile := Some(finishedTiles[0]);
      returned := returned + multiset{finishedTiles[0].tile};
      finishedTiles := finishedTiles[1..];
    }
  }
}
