/** What a cycle of a core moves, and when an instruction may go. ONNXim/src/SystolicWS.cc:6-108,
    ONNXim/src/Core.cc:131-175, 218-248, 304-447. */
module CoreLedger {
  import opened Numbers
  import opened Scratchpad
  import opened Systolic

  /** The head of a pipeline finishes in this cycle. */
  predicate Finishes(p: seq<Flying>, now: nat) { p != [] && p[0].finish <= now }

  /** The tiles whose last instruction finishes in this cycle in one of the pipelines. */
  function Completed(p: seq<Flying>, now: nat): set<nat> {
    if Finishes(p, now) && p[0].inst.last then {p[0].inst.tile} else {}
  }

  /** The front of the store queue goes, with the scratchpads as they are at the end of the cycle. */
  predicate Sends(s: Core, b: Banks) { s.st != [] && Ready(b, Dest(s.st[0])) }

  lemma UpMoves(k: Setup, s: Core)
    requires UpToIssue(k, s).Next?
    ensures var u := UpToIssue(k, s).core;
            && u.cycle == s.cycle && u.ex == s.ex && u.st == s.st && u.writes == s.writes
            && u.ld == (if s.ld == [] then [] else s.ld[1..])
            && (forall l :: u.loads[l] == s.loads[l] + if s.ld != [] && Dest(s.ld[0]) == l then |s.ld[0].srcs| else 0)
            && u.pipe == (if Finishes(s.pipe, s.cycle) then s.pipe[1..] else s.pipe)
            && u.vector == (if Finishes(s.vector, s.cycle) then s.vector[1..] else s.vector)
            && u.marked == s.marked + Completed(s.pipe, s.cycle) + Completed(s.vector, s.cycle)
  {
    hide CanFill, FilledAt, CanAllocate, Allocate, Dest;
  }

  lemma IssueExMoves(k: Setup, u: Core)
    requires k.Valid() && IssueEx(k, u).Next?
    ensures var issues, t := u.ex != [] && CanIssue(k, u, u.ex[0]), IssueEx(k, u).core;
            && t.ex == (if issues then u.ex[1..] else u.ex) && t.ld == u.ld && t.st == u.st && t.loads == u.loads
            && t.writes == u.writes && t.marked == u.marked && t.cycle == u.cycle
            && (if issues && IsMatrix(u.ex[0]) then
                  |t.pipe| == |u.pipe| + 1 && t.pipe[..|u.pipe|] == u.pipe && t.pipe[|u.pipe|].inst == u.ex[0]
                  && t.vector == u.vector
                else if issues then
                  t.pipe == u.pipe && |t.vector| == |u.vector| + 1 && t.vector[..|u.vector|] == u.vector
                  && t.vector[|u.vector|].inst == u.ex[0]
                else t.pipe == u.pipe && t.vector == u.vector)
  {
    hide Reserve, CanReserve, BubbleOf, StartOf, CanIssue, Latency;
  }

  lemma StMoves(c: Core)
    ensures var t := HandleSt(c);
            && t == c.(st := t.st, writes := t.writes, marked := t.marked)
            && t.st == (if Sends(c, c.banks) then c.st[1..] else c.st)
            && t.writes == c.writes + (if Sends(c, c.banks) then |c.st[0].srcs| else 0)
            && t.marked == c.marked + if Sends(c, c.banks) && c.st[0].last then {c.st[0].tile} else {}
  {
    hide Ready, Dest;
  }

  /** One cycle, seen from its end. At most one load, one compute instruction and one store leave their queues, in
      order; the load asks for all its sources, the store writes all of its; and a tile is marked exactly if its last
      instruction finished in a pipeline or was stored. */
  lemma TickMoves(k: Setup, s: Core)
    requires k.Valid() && Tick(k, s).Next?
    ensures var u, t := UpToIssue(k, s).core, Tick(k, s).core;
            && t.cycle == s.cycle + 1
            && t.ld == (if s.ld == [] then [] else s.ld[1..])
            && (forall l :: t.loads[l] == s.loads[l] + if s.ld != [] && Dest(s.ld[0]) == l then |s.ld[0].srcs| else 0)
            && t.ex == (if s.ex != [] && CanIssue(k, u, s.ex[0]) then s.ex[1..] else s.ex)
            && t.st == (if Sends(s, t.banks) then s.st[1..] else s.st)
            && t.writes == s.writes + (if Sends(s, t.banks) then |s.st[0].srcs| else 0)
            && t.marked == s.marked + Completed(s.pipe, s.cycle) + Completed(s.vector, s.cycle)
                           + if Sends(s, t.banks) && s.st[0].last then {s.st[0].tile} else {}
  {
    hide UpToIssue, IssueEx, HandleSt, CanIssue, Ready, Dest, Completed, Finishes, IsMatrix;
    UpMoves(k, s);
    IssueExMoves(k, UpToIssue(k, s).core);
    StMoves(IssueEx(k, UpToIssue(k, s).core).core);
  }

  /** What one cycle does to the pipelines: the heads that are done leave, and what was issued joins its own. */
  lemma TickPipes(k: Setup, s: Core)
    requires k.Valid() && Tick(k, s).Next?
    ensures var u, t := UpToIssue(k, s).core, Tick(k, s).core;
            var issues := s.ex != [] && CanIssue(k, u, s.ex[0]);
            var pipe := if Finishes(s.pipe, s.cycle) then s.pipe[1..] else s.pipe;
            var vector := if Finishes(s.vector, s.cycle) then s.vector[1..] else s.vector;
            && u.pipe == pipe && u.vector == vector
            && (if issues && IsMatrix(s.ex[0]) then
                  |t.pipe| == |pipe| + 1 && t.pipe[..|pipe|] == pipe && t.pipe[|pipe|].inst == s.ex[0]
                  && t.vector == vector
                else if issues then
                  t.pipe == pipe && |t.vector| == |vector| + 1 && t.vector[..|vector|] == vector
                  && t.vector[|vector|].inst == s.ex[0]
                else t.pipe == pipe && t.vector == vector)
  {
    hide UpToIssue, IssueEx, HandleSt, CanIssue, Ready, Dest, Completed, Finishes, IsMatrix;
    UpMoves(k, s);
    IssueExMoves(k, UpToIssue(k, s).core);
    StMoves(IssueEx(k, UpToIssue(k, s).core).core);
  }

  /** What the issue of a matrix instruction adds to the statistics: one issue, one preload if it is one, and for the
      gap behind its predecessor what BubbleOf says; see Systolic.BubbleOvercounts. Nothing else changes them. */
  lemma TickStatistics(k: Setup, s: Core)
    requires k.Valid() && Tick(k, s).Next?
    ensures var u, t := UpToIssue(k, s).core, Tick(k, s).core;
            if s.ex != [] && CanIssue(k, u, s.ex[0]) && IsMatrix(s.ex[0]) then
              && t.issues == s.issues + 1 && t.preloads == s.preloads + (if s.ex[0].opcode.GemmPreload? then 1 else 0)
              && t.bubble == s.bubble + BubbleOf(k, u, s.ex[0])
            else t.issues == s.issues && t.preloads == s.preloads && t.bubble == s.bubble
  {
    hide UpToIssue, IssueEx, HandleSt, CanIssue, IsMatrix, BubbleOf;
    UpStatistics(k, s);
    IssueStatistics(k, UpToIssue(k, s).core);
    StMoves(IssueEx(k, UpToIssue(k, s).core).core);
  }

  lemma UpStatistics(k: Setup, s: Core)
    requires UpToIssue(k, s).Next?
    ensures var u := UpToIssue(k, s).core;
            u.ex == s.ex && u.issues == s.issues && u.preloads == s.preloads && u.bubble == s.bubble
  {
    hide CanFill, FilledAt, CanAllocate, Allocate, Dest;
  }

  lemma IssueStatistics(k: Setup, u: Core)
    requires k.Valid() && IssueEx(k, u).Next?
    ensures var t := IssueEx(k, u).core;
            if u.ex != [] && CanIssue(k, u, u.ex[0]) && IsMatrix(u.ex[0]) then
              && t.issues == u.issues + 1 && t.preloads == u.preloads + (if u.ex[0].opcode.GemmPreload? then 1 else 0)
              && t.bubble == u.bubble + BubbleOf(k, u, u.ex[0])
            else t.issues == u.issues && t.preloads == u.preloads && t.bubble == u.bubble
  {
    hide Reserve, CanReserve, StartOf, CanIssue, Latency, IsMatrix;
  }

  // When an instruction may go ------------------------------------------------------------------------

  /** The location is there and nothing is being written to it. */
  ghost predicate Settled(c: Core, l: Loc) {
    Allocated(c.banks.At(l), l.address) && l !in Writers(c)
  }

  /** An address from the base of the accumulator on lies in the half of it that the tile has, if the instruction may
      name the accumulator there, and any other address in the tile's half of the scratchpad. */
  function PlaceOf(i: Inst, address: nat, accumToo: bool): Loc {
    if accumToo && address >= 0x2000_0000 then Loc(true, i.accumSpadId, address) else Loc(false, i.spadId, address)
  }

  lemma PlacesAre(i: Inst, a: nat)
    ensures Src(i, a) == PlaceOf(i, a, i.srcFromAccum) && Dest(i) == PlaceOf(i, i.dest, true)
  {
  }

  /** In every state that an orderly run without zero initialisation reaches: a compute instruction can be issued
      exactly if all it reads is there and settled and its unit has room; a load can be dispatched exactly if its
      destination is free and fits, a store exactly if what it stores is there and settled, and a compute instruction
      exactly if it could be issued and none is waiting. */
  lemma MayGoIff(k: Setup, es: seq<Systolic.Event>, t: Core, i: Inst)
    requires k.Valid() && Systolic.Runs(k, true, RESET, es, t)
    ensures CanIssue(k, t, i) <==>
              && (forall a :: a in i.srcs ==> Settled(t, PlaceOf(i, a, i.srcFromAccum)))
              && if i.opcode.Gemm? || i.opcode.GemmPreload? then |t.pipe| < k.height else |t.vector| == 0
    ensures var l := PlaceOf(i, i.dest, true);
            Enters(k, t, i) <==>
              match i.opcode
              case MovIn => i.dest !in t.banks.At(l).table
                            && (t.banks.At(l).used + i.size) * k.Of(l).dataWidth <= k.Of(l).size
              case MovOut => Settled(t, l)
              case _ => |t.ex| == 0 && CanIssue(k, t, i)
  {
    hide CoreInv, Writers, Ready, Reaches, Orderly, Src, PlaceOf;
    ResetKeeps(k, true);
    Systolic.RunKeeps(k, true, RESET, es, t);
    BoardOf(k, t, true);
    forall l
      ensures Ready(t.banks, l) <==> Settled(t, l)
    {
      HitMeansSettled(k, t.banks, Writers(t), true, l);
    }
    hide Board;
    DestAddress(i);
    forall a
      ensures Src(i, a) == PlaceOf(i, a, i.srcFromAccum)
    {
      PlacesAre(i, a);
    }
    PlacesAre(i, 0);
  }

  lemma DestAddress(i: Inst)
    ensures Dest(i).address == i.dest
  {
  }

  // What a reservation waits for ----------------------------------------------------------------------

  /** A compute instruction that finds its destination makes it wait for one write more; one that has to allocate it
      makes it wait for its size if it initialises with zeroes and for one write if not. A load waits for its size.
      No other location changes. */
  lemma ReservationWaits(k: Setup, b: Banks, i: Inst, l: Loc)
    requires CanReserve(k, b, i)
    ensures var h, h' := b.At(l), Reserve(k, b, i).At(l);
            if l == Dest(i) then
              && i.dest in h'.table && !h'.table[i.dest].valid
              && h'.table[i.dest].remain
                 == (if i.dest in h.table then h.table[i.dest].remain + 1 else if i.zeroInit then i.size else 1)
              && h'.used == h.used + if i.dest in h.table then 0 else i.size
            else
              && (l.address in h'.table <==> l.address in h.table)
              && (l.address in h.table ==> h'.table[l.address] == h.table[l.address])
  {
    DestAddress(i);
  }

  lemma LoadWaits(k: Setup, b: Banks, i: Inst, l: Loc)
    requires CanAllocate(k, b, Dest(i), i.size)
    ensures var h, h' := b.At(l), Allocate(k, b, Dest(i), i.size, i.size).At(l);
            if l == Dest(i) then
              i.dest !in h.table && h'.table == h.table[i.dest := Entry(false, i.size, i.size)]
              && h'.used == h.used + i.size
            else
              && (l.address in h'.table <==> l.address in h.table)
              && (l.address in h.table ==> h'.table[l.address] == h.table[l.address])
  {
    DestAddress(i);
  }

  /** An answer from memory makes its own location wait for one write less, and no other. */
  lemma AnswerFills(s: Core, l: Loc, x: Loc)
    requires Respond(s, l).Next?
    ensures var t := Respond(s, l).core;
            var h, h' := s.banks.At(x), t.banks.At(x);
            && t.loads == s.loads - multiset{l}
            && (x == l ==> x.address in h.table && x.address in h'.table
                           && h'.table[x.address].remain == h.table[x.address].remain - 1
                           && (h'.table[x.address].valid <==> h'.table[x.address].remain == 0))
            && (x != l ==> (x.address in h'.table <==> x.address in h.table)
                           && (x.address in h.table ==> h'.table[x.address] == h.table[x.address]))
  {
  }
}
