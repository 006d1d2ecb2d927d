/** No write finds its entry flushed: the tiles of a core against its scoreboard. ONNXim/src/Core.cc:65-196,
    ONNXim/src/SystolicWS.cc:6-108. */
module TileSafety {
  import opened Options
  import opened Scratchpad
  import opened Systolic
  import opened Tiles
  import opened Refinement

  // Programs that settle ------------------------------------------------------------------------------

  /** A scratchpad address, whichever half the tile works in. */
  datatype Place = Place(accum: bool, address: nat)

  function DestPlace(i: Inst): Place { Place(i.dest >= ACCUM_SPAD_BASE, i.dest) }

  function SrcPlace(i: Inst, a: nat): Place { Place(i.srcFromAccum && a >= ACCUM_SPAD_BASE, a) }

  /** The instruction is not dispatched before the place is a hit. */
  predicate WaitsFor(i: Inst, p: Place) {
    match i.opcode
    case MovIn => false
    case MovOut => p == DestPlace(i)
    case _ => exists a :: a in i.srcs && SrcPlace(i, a) == p
  }

  predicate Writes(i: Inst) {
    !i.opcode.MovOut?
  }

  predicate SameUnit(x: Inst, y: Inst) {
    (IsMatrix(x) && IsMatrix(y)) || (x.opcode.VectorOp? && y.opcode.VectorOp?)
  }

  /** One of the instructions between j and n waits for what j writes. */
  predicate Awaited(p: seq<Inst>, j: nat, n: nat)
    requires j < n <= |p|
  {
    exists m :: j < m < n && WaitsFor(p[m], DestPlace(p[j]))
  }

  /** Whatever the program writes before its last instruction, a later one waits for, or the last one comes
      behind it in the same unit. */
  predicate Settling(p: seq<Inst>) {
    forall j :: 0 <= j < |p| - 1 && Writes(p[j]) ==> Awaited(p, j, |p|) || SameUnit(p[j], p[|p| - 1])
  }

  predicate Good(p: seq<Inst>, plain: bool) {
    Settling(p) && forall j :: 0 <= j < |p| ==> WellFormed(p[j], plain)
  }

  /** A settling program is issued; memory answers what it was asked. */
  ghost predicate Settles(s: State, plain: bool, e: TileEvent) {
    match e
    case IssueTile(t) => !t.skip ==> Good(t.program, plain)
    case ReadAnswered(l) => l in s.core.loads
    case WriteAnswered => s.core.writes > 0
    case _ => true
  }

  /** Every program of the run settles. */
  ghost predicate AllSettle(k: Setup, plain: bool, s: State, es: seq<TileEvent>)
    requires k.Valid()
    decreases |es|
  {
    es != [] && StepTo(k, s, es[0]).Goes? ==>
      Settles(s, plain, es[0]) && AllSettle(k, plain, StepTo(k, s, es[0]).state, es[1..])
  }

  // Who writes what -----------------------------------------------------------------------------------

  ghost predicate Shape(tiles: seq<Slot>, plain: bool) {
    && |tiles| <= 2
    && (|tiles| == 2 ==> tiles[0].spadId != tiles[1].spadId && tiles[0].tile.id != tiles[1].tile.id)
    && forall n :: 0 <= n < |tiles| ==>
         !tiles[n].tile.skip && tiles[n].next <= |tiles[n].tile.program| && Good(tiles[n].tile.program, plain)
  }

  function Insts(p: seq<Flying>): seq<Inst> { seq(|p|, n requires 0 <= n < |p| => p[n].inst) }

  /** The instructions on their way to a result. */
  ghost function Active(c: Core): seq<Inst> {
    Insts(c.pipe) + Insts(c.vector) + c.ex + c.ld
  }

  /** x is what the slot dispatched at j, and nothing dispatched since waits for what it writes. */
  ghost predicate IsOpen(slot: Slot, j: nat, x: Inst) {
    && j < slot.next <= |slot.tile.program| && slot.InstAt(j) == x
    && Writes(x) && !Awaited(slot.tile.program, j, slot.next)
  }

  ghost predicate OpenIn(tiles: seq<Slot>, x: Inst) {
    exists n, j: nat :: 0 <= n < |tiles| && IsOpen(tiles[n], j, x)
  }

  ghost predicate LoadOpenIn(tiles: seq<Slot>, tile: nat, l: Loc) {
    exists x :: OpenIn(tiles, x) && x.tile == tile && x.opcode.MovIn? && Dest(x) == l
  }

  /** Every write on its way belongs to an open instruction of a tile in flight. */
  ghost predicate Attributed(c: Core, tiles: seq<Slot>) {
    && (forall x :: x in Active(c) ==> OpenIn(tiles, x))
    && (forall l :: l in c.loads ==> l in c.loaders && LoadOpenIn(tiles, c.loaders[l], l))
  }

  /** Nothing of the tile is on its way. */
  ghost predicate Absent(c: Core, tile: nat) {
    && (forall x :: x in Active(c) ==> x.tile != tile)
    && (forall l :: l in c.loads && l in c.loaders ==> c.loaders[l] != tile)
  }

  /** A tile whose last instruction has finished has dispatched everything, and nothing of it is on its way. */
  ghost predicate Marks(c: Core, tiles: seq<Slot>) {
    && (forall t :: t in c.marked ==> Absent(c, t))
    && (forall n :: 0 <= n < |tiles| && tiles[n].tile.id in c.marked ==> tiles[n].Dispatched())
  }

  /** Each unit has its own kind of instruction, and nothing follows the last one of a tile. */
  ghost predicate Order(c: Core) {
    && (forall n :: 0 <= n < |c.pipe| ==> IsMatrix(c.pipe[n].inst))
    && (forall n :: 0 <= n < |c.vector| ==> c.vector[n].inst.opcode.VectorOp?)
    && (forall m, n :: 0 <= m < n < |c.pipe| && c.pipe[m].inst.last ==> c.pipe[n].inst.tile != c.pipe[m].inst.tile)
    && (forall n, x :: 0 <= n < |c.pipe| && c.pipe[n].inst.last && x in c.ex + c.ld ==> x.tile != c.pipe[n].inst.tile)
    && (forall n, x :: 0 <= n < |c.vector| && c.vector[n].inst.last && x in c.ex + c.ld ==>
          x.tile != c.vector[n].inst.tile)
  }

  ghost predicate StoredLast(slot: Slot, x: Inst) {
    var n := |slot.tile.program|;
    slot.next == n > 0 && slot.InstAt(n - 1) == x && x.opcode.MovOut?
  }

  /** A last store is its tile's, unless that was marked before. */
  ghost predicate Stores(c: Core, tiles: seq<Slot>) {
    forall x :: x in c.st && x.last && x.tile !in c.marked ==> exists n :: 0 <= n < |tiles| && StoredLast(tiles[n], x)
  }

  ghost predicate View(c: Core, tiles: seq<Slot>) {
    Attributed(c, tiles) && Marks(c, tiles) && Order(c) && Stores(c, tiles)
  }

  /** At most one instruction waits in a queue for the next cycle, and it will not be held up. */
  ghost predicate Drained(k: Setup, c: Core) {
    |c.ex| + |c.ld| <= 1 && (c.ex != [] ==> CanIssue(k, c, c.ex[0]))
  }

  // The phases of a cycle keep the view ---------------------------------------------------------------

  /** Nothing new on its way, and nothing marked: all but the order stays. */
  lemma Fewer(c: Core, d: Core, tiles: seq<Slot>)
    requires Attributed(c, tiles) && Marks(c, tiles)
    requires (forall x :: x in Active(d) ==> x in Active(c)) && d.loads <= c.loads && d.loaders == c.loaders
    requires d.marked == c.marked
    ensures Attributed(d, tiles) && Marks(d, tiles)
  {
    forall l | l in d.loads
      ensures l in d.loaders && LoadOpenIn(tiles, d.loaders[l], l)
    {
      assert l in c.loads;
    }
    forall t | t in d.marked
      ensures Absent(d, t)
    {
      assert Absent(c, t);
    }
  }

  /** An open instruction before the last one of a fully dispatched settling program is of the last one's unit. */
  lemma OpenSharesUnit(slot: Slot, j: nat, x: Inst)
    requires IsOpen(slot, j, x) && slot.Dispatched() && Settling(slot.tile.program) && j < |slot.tile.program| - 1
    ensures SameUnit(x, slot.InstAt(|slot.tile.program| - 1))
  {
    assert SameUnit(slot.tile.program[j], slot.tile.program[|slot.tile.program| - 1]);
  }

  lemma SlotOf(tiles: seq<Slot>, plain: bool, m: nat, n: nat)
    requires Shape(tiles, plain) && m < |tiles| && n < |tiles| && tiles[m].tile.id == tiles[n].tile.id
    ensures m == n
  {
  }

  /** What is still open once the last instruction of a tile is dispatched: that one, or earlier ones of its unit. */
  lemma StillOpen(tiles: seq<Slot>, plain: bool, last: Inst, n: nat, x: Inst)
    requires Shape(tiles, plain) && n < |tiles| && tiles[n].Dispatched() && tiles[n].tile.program != []
    requires last == tiles[n].InstAt(|tiles[n].tile.program| - 1)
    requires OpenIn(tiles, x) && x.tile == last.tile
    ensures x == last || SameUnit(x, last)
  {
    var m, j: nat :| 0 <= m < |tiles| && IsOpen(tiles[m], j, x);
    SlotOf(tiles, plain, m, n);
    if j < |tiles[n].tile.program| - 1 {
      OpenSharesUnit(tiles[n], j, x);
    }
  }

  /** An open last instruction is that of a fully dispatched tile. */
  lemma OpenLast(tiles: seq<Slot>, x: Inst) returns (n: nat)
    requires OpenIn(tiles, x) && x.last
    ensures n < |tiles| && tiles[n].Dispatched() && tiles[n].tile.program != []
    ensures x == tiles[n].InstAt(|tiles[n].tile.program| - 1)
  {
    var m, j: nat :| 0 <= m < |tiles| && IsOpen(tiles[m], j, x);
    n := m;
  }

  lemma LoadsAreElsewhere(c: Core, tiles: seq<Slot>, plain: bool, last: Inst, n: nat)
    requires Attributed(c, tiles) && Shape(tiles, plain) && n < |tiles| && tiles[n].Dispatched()
    requires tiles[n].tile.program != [] && last == tiles[n].InstAt(|tiles[n].tile.program| - 1) && !last.opcode.MovIn?
    ensures forall l :: l in c.loads ==> c.loaders[l] != last.tile
  {
    forall l | l in c.loads
      ensures c.loaders[l] != last.tile
    {
      if c.loaders[l] == last.tile {
        var x :| OpenIn(tiles, x) && x.tile == last.tile && x.opcode.MovIn? && Dest(x) == l;
        StillOpen(tiles, plain, last, n, x);
      }
    }
  }

  /** An instruction x finishes: what it leaves on its way is no more, and x's tile may be marked. */
  lemma Marking(c: Core, d: Core, tiles: seq<Slot>, plain: bool, x: Inst)
    requires Attributed(c, tiles) && Marks(c, tiles) && Shape(tiles, plain)
    requires (forall y :: y in Active(d) ==> y in Active(c)) && d.loads == c.loads && d.loaders == c.loaders
    requires d.marked == Mark(c.marked, x)
    requires x.last && x.tile !in c.marked ==>
               Absent(d, x.tile) && exists n :: 0 <= n < |tiles| && tiles[n].tile.id == x.tile && tiles[n].Dispatched()
    ensures Attributed(d, tiles) && Marks(d, tiles)
  {
    hide OpenIn, LoadOpenIn, Good;
    Fewer(c, d.(marked := c.marked), tiles);
    forall t | t in d.marked
      ensures Absent(d, t)
    {
      if t in c.marked {
        assert Absent(d.(marked := c.marked), t);
      }
    }
  }

  lemma InPipe(c: Core, n: nat)
    requires n < |c.pipe|
    ensures c.pipe[n].inst in Active(c)
  {
    assert Insts(c.pipe)[n] == c.pipe[n].inst;
  }

  lemma InVector(c: Core, n: nat)
    requires n < |c.vector|
    ensures c.vector[n].inst in Active(c)
  {
    assert Insts(c.vector)[n] == c.vector[n].inst;
  }

  /** Where an active instruction can be. */
  lemma ActiveIn(c: Core, x: Inst)
    requires x in Active(c)
    ensures (exists n :: 0 <= n < |c.pipe| && c.pipe[n].inst == x)
            || (exists n :: 0 <= n < |c.vector| && c.vector[n].inst == x)
         || x in c.ex + c.ld
  {
    if x in Insts(c.pipe) {
      var n :| 0 <= n < |c.pipe| && Insts(c.pipe)[n] == x;
    } else if x in Insts(c.vector) {
      var n :| 0 <= n < |c.vector| && Insts(c.vector)[n] == x;
    }
  }

  lemma ActiveKept(c: Core, d: Core)
    requires forall n :: 0 <= n < |d.pipe| ==> d.pipe[n].inst in Active(c)
    requires forall n :: 0 <= n < |d.vector| ==> d.vector[n].inst in Active(c)
    requires forall x :: x in d.ex + d.ld ==> x in Active(c)
    ensures forall x :: x in Active(d) ==> x in Active(c)
  {
    forall x | x in Active(d)
      ensures x in Active(c)
    {
      ActiveIn(d, x);
    }
  }

  /** A last matrix instruction at the head of the pipeline is the only thing of its tile on its way. */
  lemma ComputeIsAlone(c: Core, d: Core, tiles: seq<Slot>, plain: bool)
    requires Attributed(c, tiles) && Order(c) && Shape(tiles, plain) && c.pipe != [] && c.pipe[0].inst.last
    requires d.pipe == c.pipe[1..] && d.vector == c.vector && d.ex == c.ex && d.ld == c.ld
    requires d.loads == c.loads && d.loaders == c.loaders
    ensures Absent(d, c.pipe[0].inst.tile)
    ensures exists n :: 0 <= n < |tiles| && tiles[n].tile.id == c.pipe[0].inst.tile && tiles[n].Dispatched()
  {
    var x := c.pipe[0].inst;
    InPipe(c, 0);
    var n := OpenLast(tiles, x);
    LoadsAreElsewhere(c, tiles, plain, x, n);
    forall y | y in Active(d)
      ensures y.tile != x.tile
    {
      ActiveIn(d, y);
      if m :| 0 <= m < |c.vector| && c.vector[m].inst == y && y.tile == x.tile {
        InVector(c, m);
        StillOpen(tiles, plain, x, n, y);
      }
    }
  }

  lemma VectorIsAlone(c: Core, d: Core, tiles: seq<Slot>, plain: bool)
    requires Attributed(c, tiles) && Order(c) && Shape(tiles, plain) && |c.vector| == 1 && c.vector[0].inst.last
    requires d.pipe == c.pipe && d.vector == [] && d.ex == c.ex && d.ld == c.ld
    requires d.loads == c.loads && d.loaders == c.loaders
    ensures Absent(d, c.vector[0].inst.tile)
    ensures exists n :: 0 <= n < |tiles| && tiles[n].tile.id == c.vector[0].inst.tile && tiles[n].Dispatched()
  {
    var x := c.vector[0].inst;
    InVector(c, 0);
    var n := OpenLast(tiles, x);
    LoadsAreElsewhere(c, tiles, plain, x, n);
    forall y | y in Active(d)
      ensures y.tile != x.tile
    {
      ActiveIn(d, y);
      if m :| 0 <= m < |c.pipe| && c.pipe[m].inst == y && y.tile == x.tile {
        InPipe(c, m);
        StillOpen(tiles, plain, x, n, y);
      }
    }
  }

  /** When the last instruction is a store, everything of its tile had arrived before. */
  lemma StoreIsAlone(c: Core, tiles: seq<Slot>, plain: bool, x: Inst, n: nat)
    requires Attributed(c, tiles) && Shape(tiles, plain) && n < |tiles| && StoredLast(tiles[n], x)
    ensures Absent(c, x.tile) && tiles[n].tile.id == x.tile && tiles[n].Dispatched()
  {
    LoadsAreElsewhere(c, tiles, plain, x, n);
    forall y | y in Active(c)
      ensures y.tile != x.tile
    {
      if y.tile == x.tile {
        StillOpen(tiles, plain, x, n, y);
      }
    }
  }

  lemma FinishComputeView(c: Core, tiles: seq<Slot>, plain: bool)
    requires View(c, tiles) && Shape(tiles, plain) && FinishCompute(c).Next?
    ensures View(FinishCompute(c).core, tiles)
  {
    var d := FinishCompute(c).core;
    if c.pipe != [] && c.pipe[0].finish <= c.cycle {
      hide OpenIn, LoadOpenIn, Good, StoredLast, FilledAt, CanFill, Active, Absent, Shape;
      forall n | 0 <= n < |d.pipe|
        ensures d.pipe[n].inst in Active(c)
      {
        InPipe(c, n + 1);
      }
      OthersActive(c);
      ActiveKept(c, d);
      if c.pipe[0].inst.last {
        ComputeIsAlone(c, d, tiles, plain);
      }
      Marking(c, d, tiles, plain, c.pipe[0].inst);
    }
  }

  lemma OthersActive(c: Core)
    ensures forall n :: 0 <= n < |c.pipe| ==> c.pipe[n].inst in Active(c)
    ensures forall n :: 0 <= n < |c.vector| ==> c.vector[n].inst in Active(c)
    ensures forall x :: x in c.ex + c.ld ==> x in Active(c)
  {
    forall n | 0 <= n < |c.pipe|
      ensures c.pipe[n].inst in Active(c)
    {
      InPipe(c, n);
    }
    forall n | 0 <= n < |c.vector|
      ensures c.vector[n].inst in Active(c)
    {
      InVector(c, n);
    }
  }

  lemma FinishVectorView(c: Core, tiles: seq<Slot>, plain: bool)
    requires View(c, tiles) && Shape(tiles, plain) && |c.vector| <= 1 && FinishVector(c).Next?
    ensures View(FinishVector(c).core, tiles)
  {
    var d := FinishVector(c).core;
    if c.vector != [] && c.vector[0].finish <= c.cycle {
      hide OpenIn, LoadOpenIn, Good, StoredLast, FilledAt, CanFill, Active, Absent, Shape;
      OthersActive(c);
      ActiveKept(c, d);
      if c.vector[0].inst.last {
        VectorIsAlone(c, d, tiles, plain);
      }
      Marking(c, d, tiles, plain, c.vector[0].inst);
    }
  }

  lemma HandleStView(c: Core, tiles: seq<Slot>, plain: bool)
    requires View(c, tiles) && Shape(tiles, plain)
    ensures View(HandleSt(c), tiles)
  {
    hide OpenIn, LoadOpenIn, Good, StoredLast, Active, Absent, Shape, Dest, Ready;
    var d := HandleSt(c);
    if c.st != [] && Ready(c.banks, Dest(c.st[0])) {
      var x := c.st[0];
      OthersActive(c);
      ActiveKept(c, d);
      if x.last && x.tile !in c.marked {
        var n :| 0 <= n < |tiles| && StoredLast(tiles[n], x);
        StoreIsAlone(c, tiles, plain, x, n);
        AbsentSame(c, d, x.tile);
      }
      hide Attributed, Marks;
      Marking(c, d, tiles, plain, x);
    }
  }

  lemma AbsentSame(c: Core, d: Core, t: nat)
    requires Absent(c, t) && (forall x :: x in Active(d) ==> x in Active(c)) && d.loads == c.loads
             && d.loaders == c.loaders
    ensures Absent(d, t)
  {
  }

  lemma LoadAttributed(c: Core, d: Core, tiles: seq<Slot>, i: Inst, n: nat)
    requires Attributed(c, tiles) && i in Active(c) && i.opcode.MovIn?
    requires (forall x :: x in Active(d) ==> x in Active(c)) && d.loads == c.loads[Dest(i) := n]
    requires d.loaders == c.loaders[Dest(i) := i.tile]
    ensures Attributed(d, tiles)
  {
    hide OpenIn, Active, Dest;
    forall l | l in d.loads
      ensures l in d.loaders && LoadOpenIn(tiles, d.loaders[l], l)
    {
      if l != Dest(i) {
        assert l in c.loads;
      }
    }
  }

  lemma LoadMarks(c: Core, d: Core, tiles: seq<Slot>, i: Inst, n: nat)
    requires Marks(c, tiles) && i in Active(c) && d.marked == c.marked
    requires (forall x :: x in Active(d) ==> x in Active(c)) && d.loads == c.loads[Dest(i) := n]
    requires d.loaders == c.loaders[Dest(i) := i.tile]
    ensures Marks(d, tiles)
  {
    hide Active, Dest;
    forall t | t in d.marked
      ensures Absent(d, t)
    {
      assert Absent(c, t);
    }
  }

  lemma HandledOrder(c: Core, d: Core)
    requires Order(c) && d.pipe == c.pipe && d.vector == c.vector && d.ex == c.ex && c.ld != [] && d.ld == c.ld[1..]
    ensures Order(d)
  {
  }

  lemma HandleLdView(k: Setup, c: Core, tiles: seq<Slot>)
    requires View(c, tiles) && HandleLd(k, c).Next? && forall x :: x in c.ld ==> x.opcode.MovIn?
    ensures View(HandleLd(k, c).core, tiles)
  {
    var d := HandleLd(k, c).core;
    if c.ld != [] {
      var i := c.ld[0];
      hide Attributed, Marks, Order, StoredLast, Active, Allocate, CanAllocate, Dest;
      OthersActive(c);
      ActiveKept(c, d);
      assert i in c.ex + c.ld;
      HandledOrder(c, d);
      LoadAttributed(c, d, tiles, i, d.loads[Dest(i)]);
      LoadMarks(c, d, tiles, i, d.loads[Dest(i)]);
    }
  }

  /** Where an issue takes the instruction; nothing else moves. */
  lemma IssueMoves(k: Setup, c: Core)
    requires k.Valid() && IssueEx(k, c).Next? && c.ex != [] && CanIssue(k, c, c.ex[0])
    ensures var d, i := IssueEx(k, c).core, c.ex[0];
            && d.ex == c.ex[1..] && d.ld == c.ld && d.st == c.st && d.marked == c.marked
            && d.loads == c.loads && d.loaders == c.loaders
            && (if IsMatrix(i) then |d.pipe| == |c.pipe| + 1 && d.pipe[..|c.pipe|] == c.pipe
              && d.pipe[|c.pipe|].inst == i
                                    && d.vector == c.vector
                else d.pipe == c.pipe && |d.vector| == |c.vector| + 1 && d.vector[..|c.vector|] == c.vector
                     && d.vector[|c.vector|].inst == i)
  {
    hide Reserve, CanReserve, BubbleOf, StartOf, CanIssue, Latency;
  }

  lemma IssueExView(k: Setup, c: Core, tiles: seq<Slot>)
    requires k.Valid() && View(c, tiles) && IssueEx(k, c).Next? && c.ld == [] && |c.ex| <= 1
    requires forall x :: x in c.ex ==> IsMatrix(x) || x.opcode.VectorOp?
    ensures View(IssueEx(k, c).core, tiles)
  {
    var d := IssueEx(k, c).core;
    if c.ex != [] && CanIssue(k, c, c.ex[0]) {
      IssueMoves(k, c);
      MovedView(c, d, tiles);
    }
  }

  lemma MovedView(c: Core, d: Core, tiles: seq<Slot>)
    requires View(c, tiles) && |c.ex| == 1 && c.ld == d.ld == d.ex == [] && d.st == c.st && d.marked == c.marked
    requires d.loads == c.loads && d.loaders == c.loaders
    requires IsMatrix(c.ex[0]) || c.ex[0].opcode.VectorOp?
    requires if IsMatrix(c.ex[0]) then |d.pipe| == |c.pipe| + 1 && d.pipe[..|c.pipe|] == c.pipe
                                       && d.pipe[|c.pipe|].inst == c.ex[0] && d.vector == c.vector
             else d.pipe == c.pipe && |d.vector| == |c.vector| + 1 && d.vector[..|c.vector|] == c.vector
                  && d.vector[|c.vector|].inst == c.ex[0]
    ensures View(d, tiles)
  {
    hide Attributed, Marks, StoredLast, Active;
    OthersActive(c);
    assert c.ex[0] in c.ex + c.ld;
    forall n | 0 <= n < |d.pipe|
      ensures d.pipe[n].inst in Active(c)
    {
      if n < |c.pipe| {
        assert d.pipe[..|c.pipe|][n] == c.pipe[n];
      }
    }
    forall n | 0 <= n < |d.vector|
      ensures d.vector[n].inst in Active(c)
    {
      if n < |c.vector| {
        assert d.vector[..|c.vector|][n] == c.vector[n];
      }
    }
    ActiveKept(c, d);
    Fewer(c, d, tiles);
    MovedOrder(c, d);
  }

  lemma MovedOrder(c: Core, d: Core)
    requires Order(c) && |c.ex| == 1 && c.ld == d.ld == d.ex == []
    requires IsMatrix(c.ex[0]) || c.ex[0].opcode.VectorOp?
    requires if IsMatrix(c.ex[0]) then |d.pipe| == |c.pipe| + 1 && d.pipe[..|c.pipe|] == c.pipe
                                       && d.pipe[|c.pipe|].inst == c.ex[0] && d.vector == c.vector
             else d.pipe == c.pipe && |d.vector| == |c.vector| + 1 && d.vector[..|c.vector|] == c.vector
                  && d.vector[|c.vector|].inst == c.ex[0]
    ensures Order(d)
  {
    assert c.ex[0] in c.ex + c.ld;
    assert forall n :: 0 <= n < |c.pipe| ==> d.pipe[n] == d.pipe[..|c.pipe|][n] == c.pipe[n];
    assert forall n :: 0 <= n < |c.vector| ==> d.vector[n] == d.vector[..|c.vector|][n] == c.vector[n];
  }

  // No instruction waits longer than a cycle ----------------------------------------------------------

  /** A write that arrives takes no hit away. */
  lemma FilledKeepsReady(b: Banks, l: Loc)
    requires CanFill(b, l)
    ensures forall x :: Ready(b, x) ==> Ready(FilledAt(b, l), x)
  {
  }

  lemma CanIssueKept(k: Setup, c: Core, d: Core, i: Inst)
    requires CanIssue(k, c, i) && forall x :: Ready(c.banks, x) ==> Ready(d.banks, x)
    requires |d.pipe| <= |c.pipe| && |d.vector| <= |c.vector|
    ensures CanIssue(k, d, i)
  {
    hide Ready;
  }

  lemma FinishingKeepsReady(c: Core)
    requires FinishCompute(c).Next? && FinishVector(FinishCompute(c).core).Next?
    ensures var d := FinishVector(FinishCompute(c).core).core;
            && (forall x :: Ready(c.banks, x) ==> Ready(d.banks, x)) && |d.pipe| <= |c.pipe| && |d.vector| <= |c.vector|
            && d.ex == c.ex && d.ld == c.ld
  {
    hide Ready, CanFill, FilledAt;
    if c.pipe != [] && c.pipe[0].finish <= c.cycle {
      FilledKeepsReady(c.banks, Dest(c.pipe[0].inst));
    }
    var c1 := FinishCompute(c).core;
    if c1.vector != [] && c1.vector[0].finish <= c1.cycle {
      FilledKeepsReady(c1.banks, Dest(c1.vector[0].inst));
    }
  }

  /** Whatever was dispatched in the last cycle leaves its queue in this one. */
  lemma TickDrains(k: Setup, c: Core)
    requires k.Valid() && Drained(k, c) && Tick(k, c).Next?
    ensures Tick(k, c).core.ex == [] && Tick(k, c).core.ld == []
  {
    hide FinishCompute, FinishVector, CanIssue, Launch, CanReserve, Reserve, CanAllocate, Allocate, Ready;
    FinishingKeepsReady(c);
    var c2 := FinishVector(FinishCompute(c).core).core;
    if c.ex != [] {
      CanIssueKept(k, c, c2, c.ex[0]);
      LaunchQueues(k, Reserved(k, c2), c.ex[0]);
    }
  }

  lemma UpToIssueView(k: Setup, c: Core, tiles: seq<Slot>, plain: bool)
    requires k.Valid() && CoreInv(k, c, plain, c.cycle) && View(c, tiles) && Shape(tiles, plain)
    requires UpToIssue(k, c).Next?
    ensures View(UpToIssue(k, c).core, tiles)
  {
    FinishComputeKeeps(k, c, plain);
    FinishComputeView(c, tiles, plain);
    var c1 := FinishCompute(c).core;
    FinishVectorKeeps(k, c1, plain);
    AtMostOneVector(c1, c1.cycle);
    FinishVectorView(c1, tiles, plain);
    var c2 := FinishVector(c1).core;
    OnlyLoads(c2, plain);
    hide View, Shape, FinishCompute, FinishVector, HandleLd, Board, Timing, VectorTiming, Queues;
    HandleLdView(k, c2, tiles);
  }

  lemma OnlyLoads(c: Core, plain: bool)
    requires Queues(c, plain)
    ensures forall x :: x in c.ld ==> x.opcode.MovIn?
    ensures forall x :: x in c.ex ==> IsMatrix(x) || x.opcode.VectorOp?
    ensures |c.ex| <= 1
  {
  }

  lemma TickView(k: Setup, c: Core, tiles: seq<Slot>, plain: bool)
    requires k.Valid() && CoreInv(k, c, plain, c.cycle) && View(c, tiles) && Shape(tiles, plain) && Drained(k, c)
    requires Tick(k, c).Next?
    ensures View(Tick(k, c).core, tiles) && Tick(k, c).core.ex == [] && Tick(k, c).core.ld == []
  {
    hide View, Shape, UpToIssue, IssueEx, HandleSt, CoreInv, Drained;
    TickDrains(k, c);
    LdHandled(k, c);
    UpToIssueView(k, c, tiles, plain);
    UpToIssueKeeps(k, c, plain);
    IssueEnds(k, UpToIssue(k, c).core, tiles, plain);
  }

  lemma IssueEnds(k: Setup, c: Core, tiles: seq<Slot>, plain: bool)
    requires k.Valid() && CoreInv(k, c, plain, c.cycle + 1) && View(c, tiles) && Shape(tiles, plain) && c.ld == []
    requires IssueEx(k, c).Next?
    ensures var d := HandleSt(IssueEx(k, c).core); View(d.(cycle := d.cycle + 1), tiles)
  {
    hide View, Shape, IssueEx, HandleSt, Board, Timing, VectorTiming, Queues;
    OnlyLoads(c, plain);
    IssueExView(k, c, tiles);
    HandleStView(IssueEx(k, c).core, tiles, plain);
    CycleView(HandleSt(IssueEx(k, c).core), tiles);
  }

  lemma AtMostOneVector(c: Core, due: nat)
    requires VectorTiming(c, due)
    ensures |c.vector| <= 1
  {
  }

  /** After its phase the load queue is empty. */
  lemma LdHandled(k: Setup, c: Core)
    requires Drained(k, c) && UpToIssue(k, c).Next?
    ensures UpToIssue(k, c).core.ld == []
  {
    hide CanIssue, CanAllocate, Allocate, CanFill, FilledAt;
  }

  lemma CycleView(c: Core, tiles: seq<Slot>)
    requires View(c, tiles)
    ensures View(c.(cycle := c.cycle + 1), tiles)
  {
    hide OpenIn, LoadOpenIn, StoredLast;
    var d := c.(cycle := c.cycle + 1);
    assert Active(d) == Active(c);
    Fewer(c, d, tiles);
  }

  // A dispatch, a retirement and an issue keep the view -----------------------------------------------

  lemma SrcIsDest(slot: Slot, j: nat, x: Inst, a: nat)
    requires IsOpen(slot, j, x) && !slot.Dispatched()
    requires var i := slot.InstAt(slot.next); SrcPlace(i, a) == DestPlace(x)
    ensures Src(slot.InstAt(slot.next), a) == Dest(x)
  {
    hide Awaited;
  }

  /** What the dispatched instruction waits for has settled. */
  lemma AwaitedSettles(k: Setup, c: Core, plain: bool, slot: Slot, j: nat, x: Inst)
    requires Board(k, c.banks, Writers(c), plain) && IsOpen(slot, j, x) && Dest(x) in Writers(c)
    requires !slot.Dispatched() && Enters(k, c, slot.InstAt(slot.next))
    ensures !WaitsFor(slot.tile.program[slot.next], DestPlace(slot.tile.program[j]))
  {
    var i := slot.InstAt(slot.next);
    if WaitsFor(slot.tile.program[slot.next], DestPlace(slot.tile.program[j])) {
      hide Board, Writers, CanAllocate, Ready;
      if i.opcode.MovOut? {
        HitMeansSettled(k, c.banks, Writers(c), plain, Dest(i));
      } else {
        var a :| a in i.srcs && SrcPlace(i, a) == DestPlace(x);
        SrcIsDest(slot, j, x, a);
        assert CanIssue(k, c, i);
        HitMeansSettled(k, c.banks, Writers(c), plain, Src(i, a));
      }
    }
  }

  lemma StillOpenAfter(k: Setup, c: Core, plain: bool, tiles: seq<Slot>, n: nat, x: Inst)
    requires Board(k, c.banks, Writers(c), plain) && OpenIn(tiles, x) && Dest(x) in Writers(c)
    requires n < |tiles| && !tiles[n].Dispatched() && Enters(k, c, tiles[n].InstAt(tiles[n].next))
    ensures OpenIn(tiles[n := tiles[n].(next := tiles[n].next + 1)], x)
  {
    var slot := tiles[n];
    var slot' := slot.(next := slot.next + 1);
    var m, j: nat :| 0 <= m < |tiles| && IsOpen(tiles[m], j, x);
    hide Board, Writers, Enters, Dest;
    if m == n {
      AwaitedSettles(k, c, plain, slot, j, x);
      assert IsOpen(slot', j, x);
    }
    assert IsOpen(tiles[n := slot'][m], j, x);
  }

  lemma ActiveWrites(c: Core, x: Inst)
    requires x in Active(c) && c.ex == c.ld == []
    ensures Dest(x) in Writers(c)
  {
    ActiveIn(c, x);
    if n :| 0 <= n < |c.pipe| && c.pipe[n].inst == x {
      DestIn(c.pipe, n);
    }
    if n :| 0 <= n < |c.vector| && c.vector[n].inst == x {
      DestIn(c.vector, n);
    }
    hide Dests, Dest, Active;
  }

  lemma LoadsAreWrites(c: Core, l: Loc)
    requires l in c.loads
    ensures l in Writers(c)
  {
    hide Dests;
  }

  /** The state of the queues after a dispatch. */
  lemma DispatchMoves(k: Setup, c: Core, i: Inst)
    requires Enters(k, c, i) && c.ex == c.ld == []
    ensures Dispatch(k, c, i).Next?
    ensures var d := Dispatch(k, c, i).core;
            && d.pipe == c.pipe && d.vector == c.vector && d.loads == c.loads && d.loaders == c.loaders
            && d.marked == c.marked && d.banks == c.banks && d.cycle == c.cycle
            && d.ex + d.ld == (if i.opcode.MovOut? then [] else [i]) && |d.ex| + |d.ld| <= 1
            && d.st == (if i.opcode.MovOut? then c.st + [i] else c.st)
            && (d.ex != [] ==> d.ex[0] == i && CanIssue(k, d, i))
  {
    hide CanAllocate, Ready;
  }

  lemma TakenOpen(k: Setup, c: Core, d: Core, tiles: seq<Slot>, plain: bool, n: nat, x: Inst)
    requires Board(k, c.banks, Writers(c), plain) && Attributed(c, tiles) && c.ex == c.ld == []
    requires n < |tiles| && !tiles[n].Dispatched() && Enters(k, c, tiles[n].InstAt(tiles[n].next))
    requires d == Dispatch(k, c, tiles[n].InstAt(tiles[n].next)).core && x in Active(d)
    ensures OpenIn(tiles[n := tiles[n].(next := tiles[n].next + 1)], x)
  {
    hide Board, Writers, Dispatch, Dest, OpenIn, LoadOpenIn, Enters, Active;
    DispatchMoves(k, c, tiles[n].InstAt(tiles[n].next));
    if x in Active(c) {
      ActiveWrites(c, x);
      StillOpenAfter(k, c, plain, tiles, n, x);
    } else {
      OnlyNew(c, d, tiles[n].InstAt(tiles[n].next), x);
      NewlyOpen(tiles, n);
    }
  }

  lemma TakenLoad(k: Setup, c: Core, tiles: seq<Slot>, plain: bool, n: nat, l: Loc)
    requires Board(k, c.banks, Writers(c), plain) && Attributed(c, tiles) && l in c.loads
    requires n < |tiles| && !tiles[n].Dispatched() && Enters(k, c, tiles[n].InstAt(tiles[n].next))
    ensures LoadOpenIn(tiles[n := tiles[n].(next := tiles[n].next + 1)], c.loaders[l], l)
  {
    hide Board, Writers, Dest, OpenIn, Enters, Active;
    assert LoadOpenIn(tiles, c.loaders[l], l);
    var x :| OpenIn(tiles, x) && x.tile == c.loaders[l] && x.opcode.MovIn? && Dest(x) == l;
    LoadsAreWrites(c, l);
    StillOpenAfter(k, c, plain, tiles, n, x);
  }

  lemma TakenAttributed(k: Setup, c: Core, d: Core, tiles: seq<Slot>, plain: bool, n: nat)
    requires Board(k, c.banks, Writers(c), plain) && Attributed(c, tiles) && c.ex == c.ld == []
    requires n < |tiles| && !tiles[n].Dispatched() && Enters(k, c, tiles[n].InstAt(tiles[n].next))
    requires d == Dispatch(k, c, tiles[n].InstAt(tiles[n].next)).core
    ensures Attributed(d, tiles[n := tiles[n].(next := tiles[n].next + 1)])
  {
    hide Board, Writers, Dispatch, Dest, OpenIn, LoadOpenIn, Enters, Active;
    DispatchMoves(k, c, tiles[n].InstAt(tiles[n].next));
    var tiles' := tiles[n := tiles[n].(next := tiles[n].next + 1)];
    forall x | x in Active(d)
      ensures OpenIn(tiles', x)
    {
      TakenOpen(k, c, d, tiles, plain, n, x);
    }
    forall l | l in d.loads
      ensures l in d.loaders && LoadOpenIn(tiles', d.loaders[l], l)
    {
      TakenLoad(k, c, tiles, plain, n, l);
    }
  }

  lemma OnlyNew(c: Core, d: Core, i: Inst, x: Inst)
    requires x in Active(d) && x !in Active(c) && d.pipe == c.pipe && d.vector == c.vector
    requires d.ex + d.ld == if i.opcode.MovOut? then [] else [i]
    ensures x == i && Writes(i)
  {
    ActiveIn(d, x);
    OthersActive(c);
    hide Active;
  }

  lemma NewlyOpen(tiles: seq<Slot>, n: nat)
    requires n < |tiles| && !tiles[n].Dispatched() && Writes(tiles[n].InstAt(tiles[n].next))
    ensures OpenIn(tiles[n := tiles[n].(next := tiles[n].next + 1)], tiles[n].InstAt(tiles[n].next))
  {
    var slot := tiles[n];
    var tiles' := tiles[n := slot.(next := slot.next + 1)];
    assert IsOpen(tiles'[n], slot.next, slot.InstAt(slot.next));
  }

  /** A tile that still dispatches is not marked, and its last instruction is nowhere. */
  lemma NoneIsLast(tiles: seq<Slot>, plain: bool, n: nat, x: Inst)
    requires Shape(tiles, plain) && n < |tiles| && !tiles[n].Dispatched()
    requires OpenIn(tiles, x) && x.tile == tiles[n].tile.id
    ensures !x.last
  {
    if x.last {
      var m := OpenLast(tiles, x);
      SlotOf(tiles, plain, m, n);
    }
  }

  lemma TakenMarks(k: Setup, c: Core, d: Core, tiles: seq<Slot>, n: nat)
    requires Marks(c, tiles) && c.ex == c.ld == []
    requires n < |tiles| && !tiles[n].Dispatched() && Enters(k, c, tiles[n].InstAt(tiles[n].next))
    requires d == Dispatch(k, c, tiles[n].InstAt(tiles[n].next)).core
    ensures Marks(d, tiles[n := tiles[n].(next := tiles[n].next + 1)])
  {
    var i := tiles[n].InstAt(tiles[n].next);
    DispatchMoves(k, c, i);
    hide Dispatch, Enters, Active;
    forall t | t in d.marked
      ensures Absent(d, t)
    {
      assert Absent(c, t) && t != i.tile;
      forall x | x in Active(d)
        ensures x.tile != t
      {
        if x !in Active(c) {
          OnlyNew(c, d, i, x);
        }
      }
    }
  }

  lemma TakenOrder(k: Setup, c: Core, d: Core, tiles: seq<Slot>, plain: bool, n: nat)
    requires Attributed(c, tiles) && Order(c) && Shape(tiles, plain) && c.ex == c.ld == []
    requires n < |tiles| && !tiles[n].Dispatched() && Enters(k, c, tiles[n].InstAt(tiles[n].next))
    requires d == Dispatch(k, c, tiles[n].InstAt(tiles[n].next)).core
    ensures Order(d)
  {
    hide Dispatch, OpenIn, LoadOpenIn, Enters, Shape, Active;
    var i := tiles[n].InstAt(tiles[n].next);
    DispatchMoves(k, c, i);
    OthersActive(c);
    forall x | x in Active(c) && x.last
      ensures x.tile != i.tile
    {
      if x.tile == i.tile {
        NoneIsLast(tiles, plain, n, x);
      }
    }
  }

  lemma TakenStores(k: Setup, c: Core, d: Core, tiles: seq<Slot>, n: nat)
    requires Stores(c, tiles) && c.ex == c.ld == []
    requires n < |tiles| && !tiles[n].Dispatched() && Enters(k, c, tiles[n].InstAt(tiles[n].next))
    requires d == Dispatch(k, c, tiles[n].InstAt(tiles[n].next)).core
    ensures Stores(d, tiles[n := tiles[n].(next := tiles[n].next + 1)])
  {
    hide Dispatch, Enters, StoredLast;
    DispatchMoves(k, c, tiles[n].InstAt(tiles[n].next));
    var tiles' := tiles[n := tiles[n].(next := tiles[n].next + 1)];
    forall x | x in d.st && x.last && x.tile !in d.marked
      ensures exists m :: 0 <= m < |tiles'| && StoredLast(tiles'[m], x)
    {
      if x in c.st {
        var m :| 0 <= m < |tiles| && StoredLast(tiles[m], x);
        NotStoredLast(tiles[n], x);
        assert StoredLast(tiles'[m], x);
      } else {
        NewlyStored(tiles[n], x);
        assert StoredLast(tiles'[n], x);
      }
    }
  }

  lemma NotStoredLast(slot: Slot, x: Inst)
    requires !slot.Dispatched()
    ensures !StoredLast(slot, x)
  {
  }

  lemma NewlyStored(slot: Slot, x: Inst)
    requires !slot.Dispatched() && x == slot.InstAt(slot.next) && x.last && x.opcode.MovOut?
    ensures StoredLast(slot.(next := slot.next + 1), x)
  {
  }

  // Retirement ----------------------------------------------------------------------------------------

  lemma WithoutKeeps(tiles: seq<Slot>, n: nat, m: nat) returns (m': nat)
    requires n < |tiles| && m < |tiles| && m != n
    ensures m' < |Without(tiles, n)| && Without(tiles, n)[m'] == tiles[m]
  {
    m' := if m < n then m else m - 1;
  }

  lemma WithoutOpen(tiles: seq<Slot>, n: nat, x: Inst)
    requires n < |tiles| && OpenIn(tiles, x) && x.tile != tiles[n].tile.id
    ensures OpenIn(Without(tiles, n), x)
  {
    var m, j: nat :| 0 <= m < |tiles| && IsOpen(tiles[m], j, x);
    var m' := WithoutKeeps(tiles, n, m);
    assert IsOpen(Without(tiles, n)[m'], j, x);
  }

  lemma RetiredAttributed(c: Core, tiles: seq<Slot>, n: nat)
    requires Attributed(c, tiles) && n < |tiles| && Absent(c, tiles[n].tile.id)
    ensures Attributed(c, Without(tiles, n))
  {
    hide Active, Dest, OpenIn;
    forall x | x in Active(c)
      ensures OpenIn(Without(tiles, n), x)
    {
      WithoutOpen(tiles, n, x);
    }
    forall l | l in c.loads
      ensures LoadOpenIn(Without(tiles, n), c.loaders[l], l)
    {
      var x :| OpenIn(tiles, x) && x.tile == c.loaders[l] && x.opcode.MovIn? && Dest(x) == l;
      WithoutOpen(tiles, n, x);
    }
  }

  /** A tile with nothing on its way can be forgotten. */
  lemma RetiredView(c: Core, tiles: seq<Slot>, n: nat)
    requires View(c, tiles) && n < |tiles| && tiles[n].tile.id in c.marked
    ensures View(c, Without(tiles, n))
  {
    hide Order, Attributed, Absent;
    assert Absent(c, tiles[n].tile.id);
    RetiredAttributed(c, tiles, n);
    forall x | x in c.st && x.last && x.tile !in c.marked
      ensures exists m :: 0 <= m < |Without(tiles, n)| && StoredLast(Without(tiles, n)[m], x)
    {
      var m :| 0 <= m < |tiles| && StoredLast(tiles[m], x);
      var m' := WithoutKeeps(tiles, n, m);
      assert StoredLast(Without(tiles, n)[m'], x);
    }
  }

  // Issue ---------------------------------------------------------------------------------------------

  predicate Owns(slot: Slot, accum: bool, half: BufferId) {
    (if accum then slot.accumSpadId else slot.spadId) == half
  }

  lemma OpenIsOwned(tiles: seq<Slot>, x: Inst) returns (n: nat)
    requires OpenIn(tiles, x)
    ensures n < |tiles| && x.spadId == tiles[n].spadId && x.accumSpadId == tiles[n].accumSpadId
    ensures Owns(tiles[n], Dest(x).accum, Dest(x).half)
  {
    var m, j: nat :| 0 <= m < |tiles| && IsOpen(tiles[m], j, x);
    n := m;
  }

  /** A half that no tile in flight owns has no write on its way. */
  lemma UnownedIsQuiet(c: Core, tiles: seq<Slot>, accum: bool, half: BufferId)
    requires Attributed(c, tiles) && forall n :: 0 <= n < |tiles| ==> !Owns(tiles[n], accum, half)
    ensures Quiet(Writers(c), accum, half)
  {
    OthersActive(c);
    hide Dests, Dest, Owns, Active, OpenIn;
    forall l | l in Writers(c)
      ensures l.accum != accum || l.half != half
    {
      if l in c.loads {
        var x :| OpenIn(tiles, x) && x.tile == c.loaders[l] && x.opcode.MovIn? && Dest(x) == l;
        var n := OpenIsOwned(tiles, x);
      } else if l in Dests(c.pipe) {
        var m := DestsFrom(c.pipe, l);
        var n := OpenIsOwned(tiles, c.pipe[m].inst);
      } else {
        var m := DestsFrom(c.vector, l);
        var n := OpenIsOwned(tiles, c.vector[m].inst);
      }
    }
  }

  /** An issue flushes no half that a tile in flight owns. */
  lemma FlushesUnowned(s: State, t: Tile)
    requires HasRoom(s)
    ensures forall n :: 0 <= n < |s.tiles| ==> !Owns(s.tiles[n], false, SlotFor(s, t).spadId)
    ensures !Continues(s, t) ==> forall n :: 0 <= n < |s.tiles| ==> !Owns(s.tiles[n], true, SlotFor(s, t).accumSpadId)
  {
  }

  lemma FlushedDrained(k: Setup, c: Core, tiles: seq<Slot>, accum: bool, half: BufferId)
    requires Drained(k, c) && Attributed(c, tiles) && forall n :: 0 <= n < |tiles| ==> !Owns(tiles[n], accum, half)
    ensures Drained(k, Flushed(c, accum, half))
  {
    if c.ex != [] {
      var i := c.ex[0];
      assert i in c.ex + c.ld;
      OthersActive(c);
      hide Active, OpenIn;
      var n := OpenIsOwned(tiles, i);
      forall a | a in i.srcs
        ensures Ready(Flushed(c, accum, half).banks, Src(i, a))
      {
        assert Ready(c.banks, Src(i, a));
      }
    }
  }

  lemma FlushedView(c: Core, tiles: seq<Slot>, accum: bool, half: BufferId)
    requires View(c, tiles)
    ensures View(Flushed(c, accum, half), tiles)
  {
    hide OpenIn, LoadOpenIn, StoredLast, Dest;
    var d := Flushed(c, accum, half);
    assert Active(d) == Active(c);
    Fewer(c, d, tiles);
  }

  /** One flush of a half nobody owns keeps everything. */
  lemma FlushOne(k: Setup, c: Core, tiles: seq<Slot>, plain: bool, accum: bool, half: BufferId)
    requires k.Valid() && CoreInv(k, c, plain, c.cycle) && View(c, tiles) && Drained(k, c)
    requires forall n :: 0 <= n < |tiles| ==> !Owns(tiles[n], accum, half)
    ensures Quiet(Writers(c), accum, half)
    ensures var d := Flushed(c, accum, half);
            CoreInv(k, d, plain, d.cycle) && View(d, tiles) && Drained(k, d) && d.cycle == c.cycle
              && d.marked == c.marked
  {
    hide CoreInv, Drained, Owns, Attributed, Quiet, Marks, Order, Stores;
    UnownedIsQuiet(c, tiles, accum, half);
    FlushKeeps(k, c, plain, accum, half);
    FlushedDrained(k, c, tiles, accum, half);
    hide View;
    FlushedView(c, tiles, accum, half);
  }

  /** A new tile adds nothing that is on its way. */
  lemma NewSlotView(c: Core, tiles: seq<Slot>, slot: Slot)
    requires View(c, tiles) && slot.tile.id !in c.marked
    ensures View(c, tiles + [slot])
  {
    hide Order, Active, Dest, Absent;
    forall x | OpenIn(tiles, x)
      ensures OpenIn(tiles + [slot], x)
    {
      var m, j: nat :| 0 <= m < |tiles| && IsOpen(tiles[m], j, x);
      assert IsOpen((tiles + [slot])[m], j, x);
    }
    hide OpenIn;
    forall x | x in c.st && x.last && x.tile !in c.marked
      ensures exists m :: 0 <= m < |tiles + [slot]| && StoredLast((tiles + [slot])[m], x)
    {
      var m :| 0 <= m < |tiles| && StoredLast(tiles[m], x);
      assert StoredLast((tiles + [slot])[m], x);
    }
  }

  // The invariant -------------------------------------------------------------------------------------

  ghost predicate Safe(k: Setup, s: State, plain: bool) {
    && k.Valid() && CoreInv(k, s.core, plain, s.core.cycle) && Shape(s.tiles, plain)
    && View(s.core, s.tiles) && Drained(k, s.core)
  }

  /** The flushes of an issue. */
  lemma FlushedForSafe(k: Setup, s: State, plain: bool, t: Tile)
    requires Safe(k, s, plain) && HasRoom(s)
    ensures Quiet(Writers(s.core), false, SlotFor(s, t).spadId)
    ensures !Continues(s, t) ==> Quiet(Writers(s.core), true, SlotFor(s, t).accumSpadId)
    ensures var d := FlushedFor(s, t);
            CoreInv(k, d, plain, d.cycle) && View(d, s.tiles) && Drained(k, d) && d.marked == s.core.marked
  {
    hide CoreInv, View, Drained, Quiet, Owns, Shape, SlotFor, Continues, Flushed;
    FlushesUnowned(s, t);
    var slot, c := SlotFor(s, t), s.core;
    FlushOne(k, c, s.tiles, plain, false, slot.spadId);
    if !Continues(s, t) {
      FlushOne(k, c, s.tiles, plain, true, slot.accumSpadId);
      FlushOne(k, Flushed(c, false, slot.spadId), s.tiles, plain, true, slot.accumSpadId);
    }
  }

  lemma NewSlotShape(s: State, plain: bool, t: Tile)
    requires Shape(s.tiles, plain) && HasRoom(s) && !t.skip && Fresh(s, t.id) && Good(t.program, plain)
    ensures Shape(s.tiles + [SlotFor(s, t)], plain)
  {
    hide Good, Continues;
  }

  lemma IssuedSafe(k: Setup, s: State, plain: bool, t: Tile)
    requires Safe(k, s, plain) && Allowed(s, IssueTile(t)) && Settles(s, plain, IssueTile(t))
    ensures Safe(k, Issued(s, t), plain)
  {
    hide CoreInv, View, Drained, Shape, FlushedFor, Good;
    FlushedForSafe(k, s, plain, t);
    if !t.skip {
      NewSlotShape(s, plain, t);
      NewSlotView(FlushedFor(s, t), s.tiles, SlotFor(s, t));
    }
  }

  lemma TakenView(k: Setup, c: Core, tiles: seq<Slot>, plain: bool, n: nat)
    requires k.Valid() && CoreInv(k, c, plain, c.cycle) && Shape(tiles, plain) && View(c, tiles) && c.ex == c.ld == []
    requires n < |tiles| && !tiles[n].Dispatched() && Enters(k, c, tiles[n].InstAt(tiles[n].next))
    ensures View(Dispatch(k, c, tiles[n].InstAt(tiles[n].next)).core, tiles[n := tiles[n].(next := tiles[n].next + 1)])
  {
    hide CoreInv, Enters, Attributed, Marks, Order, Stores, Good, Dispatch, Shape;
    BoardOf(k, c, plain);
    DispatchMoves(k, c, tiles[n].InstAt(tiles[n].next));
    var d := Dispatch(k, c, tiles[n].InstAt(tiles[n].next)).core;
    TakenAttributed(k, c, d, tiles, plain, n);
    TakenMarks(k, c, d, tiles, n);
    TakenOrder(k, c, d, tiles, plain, n);
    TakenStores(k, c, d, tiles, n);
  }

  lemma TakenShape(tiles: seq<Slot>, plain: bool, n: nat)
    requires Shape(tiles, plain) && n < |tiles| && !tiles[n].Dispatched()
    ensures Shape(tiles[n := tiles[n].(next := tiles[n].next + 1)], plain)
    ensures WellFormed(tiles[n].InstAt(tiles[n].next), plain)
  {
    GoodAt(tiles[n], tiles[n].next, plain);
    hide Good;
  }

  /** A dispatch, with both queues empty before it. */
  lemma TakenSafe(k: Setup, s: State, plain: bool, n: nat)
    requires Safe(k, s, plain) && s.core.ex == s.core.ld == [] && n < |s.tiles| && !s.tiles[n].Dispatched()
    requires Enters(k, s.core, s.tiles[n].InstAt(s.tiles[n].next))
    ensures Safe(k, Taken(k, s, n), plain)
  {
    hide CoreInv, Enters, View, Shape, Dispatch, WellFormed;
    var i := s.tiles[n].InstAt(s.tiles[n].next);
    TakenShape(s.tiles, plain, n);
    DispatchMoves(k, s.core, i);
    DispatchKeeps(k, s.core, plain, i);
    TakenView(k, s.core, s.tiles, plain, n);
  }

  lemma GoodAt(slot: Slot, j: nat, plain: bool)
    requires Good(slot.tile.program, plain) && j < |slot.tile.program|
    ensures WellFormed(slot.InstAt(j), plain)
  {
  }

  lemma {:induction false} DispatchSafe(k: Setup, s: State, plain: bool, turn: nat)
    requires Safe(k, s, plain) && s.core.ex == s.core.ld == []
    ensures !DispatchFrom(k, s, turn).FillFails?
    ensures DispatchFrom(k, s, turn).Goes? ==> Safe(k, DispatchFrom(k, s, turn).state, plain)
    decreases |s.tiles| - turn
  {
    hide Safe, Enters, Taken, Pick;
    if turn < |s.tiles| {
      var n := Pick(turn, s.rr, |s.tiles|);
      if s.tiles[n].Dispatched() || !Enters(k, s.core, s.tiles[n].InstAt(s.tiles[n].next)) {
        DispatchSafe(k, s, plain, turn + 1);
      } else {
        TakenSafe(k, s, plain, n);
      }
    }
  }

  lemma RetiredSafe(k: Setup, s: State, plain: bool)
    requires Safe(k, s, plain)
    ensures Safe(k, Retired(s), plain)
  {
    hide CoreInv, View, Drained, Good;
    var n := FirstDone(s, 0);
    if n < |s.tiles| {
      RetiredView(s.core, s.tiles, n);
    }
  }

  lemma TickSafe(k: Setup, s: State, plain: bool)
    requires Safe(k, s, plain)
    ensures !Tick(k, s.core).BadFill?
    ensures Tick(k, s.core).Next? ==>
              var c := Tick(k, s.core).core; Safe(k, s.(core := c), plain) && c.ex == c.ld == []
  {
    hide CoreInv, View, Shape, Tick;
    TickKeeps(k, s.core, plain);
    if Tick(k, s.core).Next? {
      TickView(k, s.core, s.tiles, plain);
    }
  }

  lemma CycledSafe(k: Setup, s: State, plain: bool)
    requires Safe(k, s, plain)
    ensures !Cycled(k, s).FillFails?
    ensures Cycled(k, s).Goes? ==> Safe(k, Cycled(k, s).state, plain)
  {
    TickSafe(k, s, plain);
    hide Safe, Tick, DispatchFrom, Retired;
    if Tick(k, s.core).Next? {
      var s1 := s.(core := Tick(k, s.core).core);
      DispatchSafe(k, s1, plain, 0);
      if DispatchFrom(k, s1, 0).Goes? {
        RetiredSafe(k, DispatchFrom(k, s1, 0).state, plain);
      }
    }
  }

  /** An answer from memory changes the scratchpads and the requests alone. */
  lemma AnsweredView(k: Setup, c: Core, d: Core, tiles: seq<Slot>)
    requires View(c, tiles) && Drained(k, c) && forall x :: Ready(c.banks, x) ==> Ready(d.banks, x)
    requires d == c.(banks := d.banks, loads := d.loads, writes := d.writes) && d.loads <= c.loads
    ensures View(d, tiles) && Drained(k, d)
  {
    hide OpenIn, LoadOpenIn, StoredLast, Dest, Ready;
    assert Active(d) == Active(c);
    Fewer(c, d, tiles);
    if c.ex != [] {
      CanIssueKept(k, c, d, c.ex[0]);
    }
  }

  lemma ReadAnsweredSafe(k: Setup, s: State, plain: bool, l: Loc)
    requires Safe(k, s, plain) && l in s.core.loads
    ensures Respond(s.core, l).Next? && Safe(k, s.(core := Respond(s.core, l).core), plain)
  {
    hide CoreInv, View, Shape, Drained, CanFill, FilledAt;
    RespondKeeps(k, s.core, plain, l);
    FilledKeepsReady(s.core.banks, l);
    AnsweredView(k, s.core, Respond(s.core, l).core, s.tiles);
  }

  lemma WriteAnsweredSafe(k: Setup, s: State, plain: bool)
    requires Safe(k, s, plain)
    ensures Safe(k, s.(core := Written(s.core)), plain)
  {
    hide CoreInv, View, Shape, Drained;
    WrittenKeeps(k, s.core, plain);
    AnsweredView(k, s.core, Written(s.core), s.tiles);
  }

  lemma StepSafe(k: Setup, s: State, plain: bool, e: TileEvent)
    requires Safe(k, s, plain) && Allowed(s, e) && Settles(s, plain, e)
    ensures !StepTo(k, s, e).FillFails?
    ensures StepTo(k, s, e).Goes? ==> Safe(k, StepTo(k, s, e).state, plain)
  {
    hide CoreInv, View, Shape, Drained, Cycled, Issued, Respond, Written;
    match e
    case IssueTile(t) => IssuedSafe(k, s, plain, t);
    case OneCycle => CycledSafe(k, s, plain);
    case ReadAnswered(l) => ReadAnsweredSafe(k, s, plain, l);
    case WriteAnswered => WriteAnsweredSafe(k, s, plain);
    case PopTile =>
  }

  lemma {:induction false} RunSafe(k: Setup, plain: bool, s: State, es: seq<TileEvent>, t: State)
    requires k.Valid() && Safe(k, s, plain) && Leads(k, s, es, t) && AllSettle(k, plain, s, es)
    ensures Safe(k, t, plain) && Calm(k, plain, s, es)
    decreases |es|
  {
    if es != [] {
      hide Safe, StepTo, Allowed, Settles, Proper;
      StepSafe(k, s, plain, es[0]);
      StepProper(k, s, plain, es[0]);
      RunSafe(k, plain, StepTo(k, s, es[0]).state, es[1..], t);
    }
  }

  lemma StepProper(k: Setup, s: State, plain: bool, e: TileEvent)
    requires Safe(k, s, plain) && Allowed(s, e) && Settles(s, plain, e)
    ensures Proper(s, plain, e)
  {
    hide Safe, FlushedFor, Quiet, Writers, SlotFor, Continues, Settling, Drained, View, CoreInv;
    if e.IssueTile? {
      FlushedForSafe(k, s, plain, e.tile);
    }
  }

  lemma StartSafe(k: Setup, plain: bool, layer: int, fusedOp: int)
    requires k.Valid()
    ensures Safe(k, Start(layer, fusedOp), plain)
  {
    ResetKeeps(k, plain);
    hide CoreInv;
  }

  /** Over every run of tiles whose programs settle: the assert in fill never fails, every issue flushes only
      halves to which nothing is on its way, and whatever can be dispatched or issued reads nothing that is
      still being written. */
  lemma EveryRunIsSafe(k: Setup, plain: bool, layer: int, fusedOp: int, es: seq<TileEvent>, t: State, e: TileEvent)
    requires k.Valid() && Leads(k, Start(layer, fusedOp), es, t) && AllSettle(k, plain, Start(layer, fusedOp), es)
    requires Allowed(t, e) && Settles(t, plain, e)
    ensures !StepTo(k, t, e).FillFails?
    ensures e.IssueTile? ==> QuietIssue(t, e.tile)
    ensures forall i, a :: CanIssue(k, t.core, i) && a in i.srcs ==> Src(i, a) !in Writers(t.core)
    ensures Calm(k, plain, Start(layer, fusedOp), es)
  {
    hide CoreInv, View, Shape, Drained, StepTo, CanIssue, Quiet, Writers, Src, SlotFor, Continues, Leads, Calm;
    hide AllSettle, Settles;
    StartSafe(k, plain, layer, fusedOp);
    RunSafe(k, plain, Start(layer, fusedOp), es, t);
    StepSafe(k, t, plain, e);
    if e.IssueTile? {
      FlushedForSafe(k, t, plain, e.tile);
    }
    ReadsAreSettled(k, t.core, plain, t.core.cycle);
  }
}
