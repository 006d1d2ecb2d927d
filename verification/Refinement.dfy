/** A core under its tiles only does what it does in some run of its own. ONNXim/src/Core.cc:65-196,
    ONNXim/src/SystolicWS.cc:6-108. */
module Refinement {
  import opened Scratchpad
  import opened Systolic
  import opened Tiles

  /** The programs in flight are well formed. */
  ghost predicate Formed(s: State, plain: bool) {
    forall n, j :: 0 <= n < |s.tiles| && 0 <= j < |s.tiles[n].tile.program| ==>
      WellFormed(s.tiles[n].tile.program[j], plain)
  }

  /** The issue flushes only halves to which nothing is on its way. */
  ghost predicate QuietIssue(s: State, t: Tile) {
    && Quiet(Writers(s.core), false, SlotFor(s, t).spadId)
    && (!Continues(s, t) ==> Quiet(Writers(s.core), true, SlotFor(s, t).accumSpadId))
  }

  /** A well-formed program is issued over quiet halves; memory answers what it was asked. */
  ghost predicate Proper(s: State, plain: bool, e: TileEvent) {
    match e
    case IssueTile(t) =>
      QuietIssue(s, t) && (!t.skip ==> forall j :: 0 <= j < |t.program| ==> WellFormed(t.program[j], plain))
    case ReadAnswered(l) => l in s.core.loads
    case WriteAnswered => s.core.writes > 0
    case _ => true
  }

  /** Every event is proper when it comes. */
  ghost predicate Calm(k: Setup, plain: bool, s: State, es: seq<TileEvent>)
    requires k.Valid()
    decreases |es|
  {
    es != [] && StepTo(k, s, es[0]).Goes? ==>
      Proper(s, plain, es[0]) && Calm(k, plain, StepTo(k, s, es[0]).state, es[1..])
  }

  lemma {:induction false} DispatchFollows(k: Setup, plain: bool, s: State, turn: nat) returns (es: seq<Systolic.Event>)
    requires k.Valid() && DispatchFrom(k, s, turn).Goes?
    ensures Reaches(k, s.core, es, DispatchFrom(k, s, turn).state.core)
    ensures Formed(s, plain) ==> Orderly(k, plain, s.core, es)
    decreases |s.tiles| - turn
  {
    hide Pick, Dispatch, Enters, Reaches, Orderly, WellFormed;
    es := [];
    if turn >= |s.tiles| {
      ReachesNothing(k, plain, s.core);
    } else {
      var slot := s.tiles[Pick(turn, s.rr, |s.tiles|)];
      if !slot.Dispatched() && Enters(k, s.core, slot.InstAt(slot.next)) {
        es := [DispatchOne(slot.InstAt(slot.next))];
        EntersGoes(k, s.core, slot.InstAt(slot.next));
        ReachesOne(k, plain, s.core, es[0]);
        FormedAt(slot, slot.next, plain);
      } else {
        es := DispatchFollows(k, plain, s, turn + 1);
      }
    }
  }

  lemma FormedAt(slot: Slot, j: nat, plain: bool)
    requires j < |slot.tile.program|
    ensures WellFormed(slot.tile.program[j], plain) ==> WellFormed(slot.InstAt(j), plain)
  {
  }

  lemma EntersGoes(k: Setup, c: Core, i: Inst)
    requires Enters(k, c, i)
    ensures Dispatch(k, c, i).Next?
  {
    hide CanAllocate, Ready, CanIssue;
  }

  lemma FlushesFollow(k: Setup, plain: bool, s: State, t: Tile) returns (es: seq<Systolic.Event>)
    requires k.Valid()
    ensures Reaches(k, s.core, es, FlushedFor(s, t))
    ensures QuietIssue(s, t) ==> Orderly(k, plain, s.core, es)
  {
    hide Continues, SlotFor, Flushed, Reaches, Orderly, Quiet, Writers;
    var slot := SlotFor(s, t);
    es := [FlushHalf(false, slot.spadId)];
    ReachesOne(k, plain, s.core, es[0]);
    if !Continues(s, t) {
      var c, e := Flushed(s.core, false, slot.spadId), FlushHalf(true, slot.accumSpadId);
      FlushedWriters(s.core, false, slot.spadId);
      ReachesOne(k, plain, c, e);
      ReachesThrough(k, plain, s.core, es, c, [e], FlushedFor(s, t));
      es := es + [e];
    }
  }

  lemma FlushedWriters(c: Core, accum: bool, half: BufferId)
    ensures Writers(Flushed(c, accum, half)) == Writers(c)
  {
    hide Dests;
  }

  lemma CycleFollows(k: Setup, plain: bool, s: State) returns (es: seq<Systolic.Event>)
    requires k.Valid() && Cycled(k, s).Goes?
    ensures Reaches(k, s.core, es, Cycled(k, s).state.core)
    ensures Formed(s, plain) ==> Orderly(k, plain, s.core, es)
  {
    hide Tick, DispatchFrom, Reaches, Orderly, FirstDone, WellFormed;
    var c := Tick(k, s.core).core;
    ReachesOne(k, plain, s.core, TickOne);
    var fs := DispatchFollows(k, plain, s.(core := c), 0);
    es := [TickOne] + fs;
    ReachesThrough(k, plain, s.core, [TickOne], c, fs, DispatchFrom(k, s.(core := c), 0).state.core);
  }

  lemma StepFollows(k: Setup, plain: bool, s: State, e: TileEvent) returns (es: seq<Systolic.Event>)
    requires k.Valid() && StepTo(k, s, e).Goes?
    ensures Reaches(k, s.core, es, StepTo(k, s, e).state.core)
    ensures Formed(s, plain) && Proper(s, plain, e) ==> Orderly(k, plain, s.core, es)
  {
    hide Cycled, FlushedFor, Reaches, Orderly, Respond, Written, SlotFor, Continues, Formed, QuietIssue;
    match e
    case IssueTile(t) => es := FlushesFollow(k, plain, s, t);
    case OneCycle => es := CycleFollows(k, plain, s);
    case ReadAnswered(l) =>
      es := [RespondOne(l)];
      ReachesOne(k, plain, s.core, RespondOne(l));
    case WriteAnswered =>
      es := [WrittenOne];
      ReachesOne(k, plain, s.core, WrittenOne);
    case PopTile =>
      es := [];
      ReachesNothing(k, plain, s.core);
  }

  lemma SameFormed(s: State, t: State, plain: bool)
    requires Formed(s, plain) && Places(t.tiles) == Places(s.tiles)
    ensures Formed(t, plain)
  {
    hide WellFormed;
    SamePlaces(t.tiles, s.tiles);
    forall n | 0 <= n < |t.tiles|
      ensures n < |s.tiles| && t.tiles[n].tile == s.tiles[n].tile
    {
      assert TilesOf(t.tiles)[n] == t.tiles[n].tile && |TilesOf(s.tiles)| == |s.tiles|;
      assert TilesOf(s.tiles)[n] == s.tiles[n].tile;
    }
  }

  lemma StepFormed(k: Setup, plain: bool, s: State, e: TileEvent)
    requires k.Valid() && Formed(s, plain) && Proper(s, plain, e) && StepTo(k, s, e).Goes?
    ensures Formed(StepTo(k, s, e).state, plain)
  {
    hide Tick, DispatchFrom, FlushedFor, Respond, Written, SlotFor, Continues, FirstDone, QuietIssue, WellFormed,
         Places;
    match e
    case IssueTile(t) => SlotHasTile(s, t);
    case OneCycle =>
      var s1 := s.(core := Tick(k, s.core).core);
      DispatchTiles(k, s1, 0);
      SameFormed(s1, DispatchFrom(k, s1, 0).state, plain);
    case _ =>
  }

  lemma SlotHasTile(s: State, t: Tile)
    ensures SlotFor(s, t).tile == t
  {
  }

  /** Whatever the programs, a core under its tiles only does what it does in some run of its own; and in an
      orderly one, if the tiles' run is calm. */
  lemma {:induction false} CoreFollows(k: Setup, plain: bool, s: State, es: seq<TileEvent>, t: State)
    returns (fs: seq<Systolic.Event>)
    requires k.Valid() && Leads(k, s, es, t)
    ensures Reaches(k, s.core, fs, t.core)
    ensures Formed(s, plain) && Calm(k, plain, s, es) ==> Orderly(k, plain, s.core, fs)
    decreases |es|
  {
    if es == [] {
      fs := [];
    } else {
      hide StepTo, Allowed, Reaches, Orderly, Formed, Proper;
      var s1 := StepTo(k, s, es[0]).state;
      var fs0 := StepFollows(k, plain, s, es[0]);
      var fs1 := CoreFollows(k, plain, s1, es[1..], t);
      fs := fs0 + fs1;
      ReachesThrough(k, plain, s.core, fs0, s1.core, fs1, t.core);
      if Formed(s, plain) && Calm(k, plain, s, es) {
        StepFormed(k, plain, s, es[0]);
      }
    }
  }

  // Runs over quiet halves ----------------------------------------------------------------------------

  /** The issue flushes the half of this location. */
  predicate FlushedBy(s: State, t: Tile, l: Loc) {
    if l.accum then !Continues(s, t) && l.half == SlotFor(s, t).accumSpadId else l.half == SlotFor(s, t).spadId
  }

  lemma IssueMisses(s: State, t: Tile, l: Loc)
    ensures !FlushedBy(s, t, l) ==> Issued(s, t).core.banks.At(l) == s.core.banks.At(l)
    ensures FlushedBy(s, t, l) ==> Issued(s, t).core.banks.At(l) == CLEARED
    ensures Issued(s, t).core == s.core.(banks := Issued(s, t).core.banks)
  {
    hide Continues;
  }

  lemma QuietIssueMisses(s: State, t: Tile)
    ensures QuietIssue(s, t) <==> forall l :: l in Writers(s.core) ==> !FlushedBy(s, t, l)
  {
    hide Writers, SlotFor, Continues;
  }

  lemma CalmBoard(k: Setup, plain: bool, layer: int, fusedOp: int, es: seq<TileEvent>, t: State)
    requires k.Valid() && Leads(k, Start(layer, fusedOp), es, t) && Calm(k, plain, Start(layer, fusedOp), es)
    ensures CoreInv(k, t.core, plain, t.core.cycle)
  {
    hide CoreInv, Leads, Calm, Reaches, Orderly;
    var fs := CoreFollows(k, plain, Start(layer, fusedOp), es, t);
    ResetKeeps(k, plain);
    Systolic.RunKeeps(k, plain, RESET, fs, t.core);
  }

  /** Over every run of well-formed programs, settling or not, that so far flushed only halves to which nothing
      was on its way: the assert in fill does not fail in the next step either. */
  lemma CalmRunIsSafe(k: Setup, plain: bool, layer: int, fusedOp: int, es: seq<TileEvent>, t: State, e: TileEvent)
    requires k.Valid() && Leads(k, Start(layer, fusedOp), es, t) && Calm(k, plain, Start(layer, fusedOp), es)
    requires e.IssueTile? || Proper(t, plain, e)
    ensures !StepTo(k, t, e).FillFails?
  {
    hide CoreInv, Leads, Calm, Tick, CanFill, FilledAt, Written, Issued, DispatchFrom, FirstDone;
    CalmBoard(k, plain, layer, fusedOp, es, t);
    match e
    case OneCycle =>
      StepOneKeeps(k, t.core, plain, TickOne);
      if Tick(k, t.core).Next? {
        DispatchNeverFills(k, t.(core := Tick(k, t.core).core), 0);
      }
    case ReadAnswered(l) => StepOneKeeps(k, t.core, plain, RespondOne(l));
    case _ =>
  }

  lemma {:induction false} DispatchNeverFills(k: Setup, s: State, turn: nat)
    ensures !DispatchFrom(k, s, turn).FillFails?
    decreases |s.tiles| - turn
  {
    hide Pick, Enters, Taken;
    if turn < |s.tiles| {
      DispatchNeverFills(k, s, turn + 1);
    }
  }

  /** And the condition is exact: an issue leaves the scoreboard in order if and only if it flushes no half to which
      something is on its way; if it does, the writes to these halves, and no others, no longer find the entry that
      fill asserts. */
  lemma IssueIsSafeIff(k: Setup, plain: bool, layer: int, fusedOp: int, es: seq<TileEvent>, t: State, tile: Tile)
    requires k.Valid() && Leads(k, Start(layer, fusedOp), es, t) && Calm(k, plain, Start(layer, fusedOp), es)
    ensures var banks := Issued(t, tile).core.banks;
            && (Board(k, banks, Writers(t.core), plain) <==> QuietIssue(t, tile))
            && forall l :: l in Writers(t.core) ==> (CanFill(banks, l) <==> !FlushedBy(t, tile, l))
  {
    hide CoreInv, Leads, Calm, Board, Writers, CanFill, Issued, FlushedBy, QuietIssue, FlushedFor;
    CalmBoard(k, plain, layer, fusedOp, es, t);
    BoardOf(k, t.core, plain);
    var banks := Issued(t, tile).core.banks;
    QuietIssueMisses(t, tile);
    forall l | l in Writers(t.core)
      ensures CanFill(banks, l) <==> !FlushedBy(t, tile, l)
    {
      FillScores(k, t.core.banks, Writers(t.core), plain, l);
      IssueFills(t, tile, l);
    }
    if QuietIssue(t, tile) {
      QuietIssueKeeps(k, plain, t, tile);
    } else {
      var l :| l in Writers(t.core) && FlushedBy(t, tile, l);
      if Board(k, banks, Writers(t.core), plain) {
        FillScores(k, banks, Writers(t.core), plain, l);
      }
    }
  }

  lemma IssueFills(s: State, t: Tile, l: Loc)
    requires CanFill(s.core.banks, l)
    ensures CanFill(Issued(s, t).core.banks, l) <==> !FlushedBy(s, t, l)
  {
    hide Issued, FlushedBy;
    IssueMisses(s, t, l);
  }

  lemma QuietIssueKeeps(k: Setup, plain: bool, s: State, t: Tile)
    requires k.Valid() && CoreInv(k, s.core, plain, s.core.cycle) && QuietIssue(s, t)
    ensures Board(k, Issued(s, t).core.banks, Writers(s.core), plain)
  {
    hide CoreInv, Quiet, Writers, SlotFor, Continues, Flushed, Board;
    var slot := SlotFor(s, t);
    var c := Flushed(s.core, false, slot.spadId);
    FlushKeeps(k, s.core, plain, false, slot.spadId);
    FlushedCycle(s.core, false, slot.spadId);
    FlushedWriters(s.core, false, slot.spadId);
    BoardOf(k, c, plain);
    if !Continues(s, t) {
      FlushKeeps(k, c, plain, true, slot.accumSpadId);
      FlushedCycle(c, true, slot.accumSpadId);
      FlushedWriters(c, true, slot.accumSpadId);
      BoardOf(k, Flushed(c, true, slot.accumSpadId), plain);
    }
  }

  lemma FlushedCycle(c: Core, accum: bool, half: BufferId)
    ensures Flushed(c, accum, half).cycle == c.cycle
  {
  }
}
