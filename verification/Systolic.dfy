/** The weight-stationary systolic core: its compute and vector pipelines, its instruction queues and the
    scratchpads they wait on. ONNXim/src/SystolicWS.cc:6-127, ONNXim/src/Core.cc:118-181 and 218-447. */
module Systolic {
  import opened Scratchpad
  import opened Numbers

  datatype Opcode = MovIn | MovOut | Gemm | GemmPreload | VectorOp(cycles: nat)

  /** Scratchpad addresses from here on are the accumulator's. */
  const ACCUM_SPAD_BASE := 0x2000_0000

  /** An instruction; `last` marks the last one of its tile. */
  datatype Inst = Inst(opcode: Opcode, dest: nat, srcs: seq<nat>, srcFromAccum: bool, spadId: BufferId,
                       accumSpadId: BufferId, size: nat, computeSize: nat, zeroInit: bool, last: bool, tile: nat)

  datatype Loc = Loc(accum: bool, half: BufferId, address: nat)

  datatype Banks = Banks(spad: Pad, accum: Pad) {
    function At(l: Loc): Half { if l.accum then accum[l.half] else spad[l.half] }
    function With(l: Loc, h: Half): (b: Banks)
    {
      if l.accum then Banks(spad, accum[l.half := h]) else Banks(spad[l.half := h], accum)
    }
  }

  datatype Flying = Flying(inst: Inst, start: nat, finish: nat)
  datatype Done = Done(op: Flying, at: nat)

  /** An array of at least one row and one column, and its two scratchpads. */
  datatype Setup = Setup(height: nat, width: nat, spad: Config, accum: Config) {
    predicate Valid() { height >= 1 && width >= 1 }
    function Of(l: Loc): Config { if l.accum then accum else spad }
  }

  /** `loads` are the read requests sent and not yet answered, `writes` counts the write requests; `marked` are
      the tiles whose last instruction has finished. The last four fields are history, with `loaders` the tile
      that last loaded a location. */
  datatype Core = Core(cycle: nat, pipe: seq<Flying>, vector: seq<Flying>, ld: seq<Inst>, ex: seq<Inst>, st: seq<Inst>,
                       banks: Banks, loads: multiset<Loc>, writes: nat, marked: set<nat>,
                       issues: nat, preloads: nat, bubble: nat,
                       issued: seq<Flying>, retired: seq<Done>, vectorDone: seq<Done>, loaders: map<Loc, nat>)

  const RESET := Core(0, [], [], [], [], [], Banks([CLEARED, CLEARED], [CLEARED, CLEARED]), multiset{}, 0, {},
                      0, 0, 0, [], [], [], map[])

  /** The core goes on, or it stops because a scratchpad refused an allocation or the assert in fill failed. */
  datatype Outcome = Next(core: Core) | Refused | BadFill

  function Dest(i: Inst): Loc {
    if i.dest >= ACCUM_SPAD_BASE then Loc(true, i.accumSpadId, i.dest) else Loc(false, i.spadId, i.dest)
  }

  function Src(i: Inst, a: nat): Loc {
    if i.srcFromAccum && a >= ACCUM_SPAD_BASE then Loc(true, i.accumSpadId, a) else Loc(false, i.spadId, a)
  }

  predicate Ready(b: Banks, l: Loc) {
    Hit(b.At(l), l.address)
  }

  predicate IsMatrix(i: Inst) {
    i.opcode.Gemm? || i.opcode.GemmPreload?
  }

  predicate CanIssue(k: Setup, s: Core, i: Inst) {
    && (forall a :: a in i.srcs ==> Ready(s.banks, Src(i, a)))
    && (if IsMatrix(i) then |s.pipe| < k.height else s.vector == [])
  }

  function Streamed(i: Inst): nat { Max(i.computeSize, 4) }

  function Latency(k: Setup, i: Inst): nat
    requires k.Valid()
  {
    k.height + k.width - 2 + Streamed(i)
  }

  // The phases of a cycle -----------------------------------------------------------------------------

  predicate CanFill(b: Banks, l: Loc) {
    Fillable(b.At(l), l.address)
  }

  function FilledAt(b: Banks, l: Loc): Banks
    requires CanFill(b, l)
  {
    b.With(l, Filled(b.At(l), l.address))
  }

  function Mark(marked: set<nat>, i: Inst): set<nat> {
    if i.last then marked + {i.tile} else marked
  }

  function FinishCompute(s: Core): Outcome {
    if s.pipe == [] || s.pipe[0].finish > s.cycle then Next(s)
    else if !CanFill(s.banks, Dest(s.pipe[0].inst)) then BadFill
    else Next(s.(banks := FilledAt(s.banks, Dest(s.pipe[0].inst)), pipe := s.pipe[1..],
                 marked := Mark(s.marked, s.pipe[0].inst), retired := s.retired + [Done(s.pipe[0], s.cycle)]))
  }

  function FinishVector(s: Core): Outcome {
    if s.vector == [] || s.vector[0].finish > s.cycle then Next(s)
    else if !CanFill(s.banks, Dest(s.vector[0].inst)) then BadFill
    else Next(s.(banks := FilledAt(s.banks, Dest(s.vector[0].inst)), vector := s.vector[1..],
                 marked := Mark(s.marked, s.vector[0].inst), vectorDone := s.vectorDone + [Done(s.vector[0], s.cycle)]))
  }

  predicate CanAllocate(k: Setup, b: Banks, l: Loc, size: nat) {
    Accepts(k.Of(l), b.At(l), l.address, size)
  }

  function Allocate(k: Setup, b: Banks, l: Loc, size: nat, count: nat): Banks {
    b.With(l, Prefetched(k.Of(l), b.At(l), l.address, size, count))
  }

  /** The front of the load queue reserves its destination and sends one request per source. */
  function HandleLd(k: Setup, s: Core): Outcome {
    if s.ld == [] then Next(s)
    else
      var i := s.ld[0];
      if !CanAllocate(k, s.banks, Dest(i), i.size) then Refused
      else Next(s.(banks := Allocate(k, s.banks, Dest(i), i.size, i.size), ld := s.ld[1..],
                   loads := s.loads[Dest(i) := s.loads[Dest(i)] + |i.srcs|], loaders := s.loaders[Dest(i) := i.tile]))
  }

  /** The writes a compute instruction announces when it has to allocate its destination. */
  function Announced(i: Inst): nat { if i.zeroInit then i.size else 1 }

  predicate CanReserve(k: Setup, b: Banks, i: Inst) {
    Allocated(b.At(Dest(i)), i.dest) || CanAllocate(k, b, Dest(i), i.size)
  }

  function Reserve(k: Setup, b: Banks, i: Inst): Banks
    requires CanReserve(k, b, i)
  {
    if Allocated(b.At(Dest(i)), i.dest) then b.With(Dest(i), CountedUp(b.At(Dest(i)), i.dest))
    else Allocate(k, b, Dest(i), i.size, Announced(i))
  }

  /** How far behind its predecessor a matrix instruction starts: the predecessor's stream, or the array's
      height if weights have to be preloaded. */
  function Offset(k: Setup, last: Flying, i: Inst): nat {
    if i.opcode.GemmPreload? then Max(Streamed(last.inst), k.height) else Streamed(last.inst)
  }

  function StartOf(k: Setup, s: Core, i: Inst): nat
    requires k.Valid()
  {
    if s.pipe == [] then s.cycle + (if i.opcode.GemmPreload? then 2 * k.height - 1 else 0)
    else
      var last := s.pipe[|s.pipe| - 1];
      Max(last.start + Offset(k, last, i), s.cycle)
  }

  /** The bubble cycles one issue adds to the statistics. */
  function BubbleOf(k: Setup, s: Core, i: Inst): nat {
    if s.pipe == [] then 0
    else
      var last := s.pipe[|s.pipe| - 1];
      if last.start + Offset(k, last, i) < s.cycle then s.cycle - last.start + Offset(k, last, i) else 0
  }

  function OnArray(k: Setup, s: Core, i: Inst): Flying
    requires k.Valid()
  {
    Flying(i, StartOf(k, s, i), StartOf(k, s, i) + Latency(k, i))
  }

  function OnVector(s: Core, i: Inst): Flying {
    Flying(i, s.cycle, s.cycle + if i.opcode.VectorOp? then i.opcode.cycles else 0)
  }

  function Launch(k: Setup, s: Core, i: Inst): Core
    requires k.Valid()
  {
    if IsMatrix(i) then
      var f := OnArray(k, s, i);
      s.(pipe := s.pipe + [f], issued := s.issued + [f], issues := s.issues + 1,
         preloads := s.preloads + (if i.opcode.GemmPreload? then 1 else 0), bubble := s.bubble + BubbleOf(k, s, i))
    else
      s.(vector := s.vector + [OnVector(s, i)])
  }

  function IssueEx(k: Setup, s: Core): Outcome
    requires k.Valid()
  {
    if s.ex == [] || !CanIssue(k, s, s.ex[0]) then Next(s)
    else if !CanReserve(k, s.banks, s.ex[0]) then Refused
    else Next(Launch(k, Reserved(k, s), s.ex[0]))
  }

  /** The front of the store queue sends one request per source once its location is a hit. */
  function HandleSt(s: Core): Core {
    if s.st != [] && Ready(s.banks, Dest(s.st[0])) then
      s.(st := s.st[1..], writes := s.writes + |s.st[0].srcs|, marked := Mark(s.marked, s.st[0]))
    else s
  }

  /** The cycle as far as the issue of a compute instruction. */
  function UpToIssue(k: Setup, s: Core): Outcome {
    var o1 := FinishCompute(s);
    if !o1.Next? then o1 else
    var o2 := FinishVector(o1.core);
    if !o2.Next? then o2 else HandleLd(k, o2.core)
  }

  function Tick(k: Setup, s: Core): Outcome
    requires k.Valid()
  {
    var o3 := UpToIssue(k, s);
    if !o3.Next? then o3 else
    var o4 := IssueEx(k, o3.core);
    if !o4.Next? then o4 else
    var t := HandleSt(o4.core);
    Next(t.(cycle := t.cycle + 1))
  }

  /** An instruction can enter its queue. */
  predicate Enters(k: Setup, s: Core, i: Inst) {
    match i.opcode
    case MovIn => CanAllocate(k, s.banks, Dest(i), i.size)
    case MovOut => Ready(s.banks, Dest(i))
    case _ => s.ex == [] && CanIssue(k, s, i)
  }

  /** A tile's front instruction enters a queue if it can. */
  function Dispatch(k: Setup, s: Core, i: Inst): Outcome {
    match i.opcode
    case MovIn => if CanAllocate(k, s.banks, Dest(i), i.size) then Next(s.(ld := s.ld + [i])) else Refused
    case MovOut => Next(if Ready(s.banks, Dest(i)) then s.(st := s.st + [i]) else s)
    case _ => Next(if s.ex == [] && CanIssue(k, s, i) then s.(ex := s.ex + [i]) else s)
  }

  /** A read request is answered. */
  function Respond(s: Core, l: Loc): Outcome {
    if CanFill(s.banks, l) then Next(s.(banks := FilledAt(s.banks, l), loads := s.loads - multiset{l})) else BadFill
  }

  /** A write request is answered. */
  function Written(s: Core): Core {
    if s.writes > 0 then s.(writes := s.writes - 1) else s
  }

  // The timing of the compute pipeline ----------------------------------------------------------------

  /** b was issued right after a. */
  ghost predicate Follows(k: Setup, a: Flying, b: Flying) {
    a.start + Offset(k, a, b.inst) <= b.start
  }

  ghost predicate Timed(k: Setup, log: seq<Flying>)
    requires k.Valid()
  {
    && (forall i :: 0 <= i < |log| ==> log[i].finish == log[i].start + Latency(k, log[i].inst))
    && (forall i :: 0 < i < |log| ==> Follows(k, log[i - 1], log[i]))
  }

  lemma {:induction false} FinishesInOrder(k: Setup, log: seq<Flying>, i: nat, j: nat)
    requires k.Valid() && Timed(k, log) && i < j < |log|
    ensures log[i].finish < log[j].finish && log[i].start + Streamed(log[i].inst) <= log[j].start
    decreases j - i
  {
    assert Follows(k, log[j - 1], log[j]);
    if i < j - 1 {
      FinishesInOrder(k, log, i, j - 1);
    }
  }

  function Ops(ds: seq<Done>): seq<Flying> { seq(|ds|, i requires 0 <= i < |ds| => ds[i].op) }

  /** `due` is the current cycle before the head check and the next one after it. */
  ghost predicate Timing(k: Setup, s: Core, due: nat)
    requires k.Valid()
  {
    && Timed(k, s.issued) && s.issued == Ops(s.retired) + s.pipe && s.issues == |s.issued|
    && |s.pipe| <= k.height
    && (forall i :: 0 <= i < |s.pipe| ==> due <= s.pipe[i].finish)
    && (forall i :: 0 <= i < |s.retired| ==> s.retired[i].at == s.retired[i].op.finish <= s.cycle)
  }

  /** The head check retires an instruction exactly when its finish cycle comes, and then none is overdue. */
  lemma FinishComputeTiming(k: Setup, s: Core)
    requires k.Valid() && Timing(k, s, s.cycle) && FinishCompute(s).Next?
    ensures Timing(k, FinishCompute(s).core, s.cycle + 1)
    ensures forall i :: 0 <= i < |s.pipe| && s.pipe[i].finish == s.cycle ==> i == 0
  {
    var n := |s.retired|;
    forall i | 0 < i < |s.pipe|
      ensures s.pipe[0].finish < s.pipe[i].finish
    {
      assert s.issued[n] == s.pipe[0] && s.issued[n + i] == s.pipe[i];
      FinishesInOrder(k, s.issued, n, n + i);
    }
    if s.pipe != [] && s.pipe[0].finish <= s.cycle {
      assert s.pipe == [s.pipe[0]] + s.pipe[1..];
      assert Ops(s.retired + [Done(s.pipe[0], s.cycle)]) == Ops(s.retired) + [s.pipe[0]];
    }
  }

  /** Behind the last issue, whether it is still in the pipeline or long retired, a new one keeps its distance. */
  lemma LaunchFollows(k: Setup, s: Core, i: Inst)
    requires k.Valid() && Timing(k, s, s.cycle + 1) && s.issued != []
    ensures Follows(k, s.issued[|s.issued| - 1], OnArray(k, s, i))
  {
    if s.pipe == [] {
      assert s.issued[|s.issued| - 1] == s.retired[|s.retired| - 1].op;
    } else {
      assert s.issued[|s.issued| - 1] == s.pipe[|s.pipe| - 1];
    }
  }

  lemma TimedAppend(k: Setup, log: seq<Flying>, f: Flying)
    requires k.Valid() && Timed(k, log) && f.finish == f.start + Latency(k, f.inst)
    requires log != [] ==> Follows(k, log[|log| - 1], f)
    ensures Timed(k, log + [f])
  {
    hide Follows;
    forall i | 0 < i < |log + [f]|
      ensures Follows(k, (log + [f])[i - 1], (log + [f])[i])
    {
      if i < |log| {
        assert Follows(k, log[i - 1], log[i]);
      }
    }
  }

  lemma LaunchTiming(k: Setup, s: Core, i: Inst)
    requires k.Valid() && Timing(k, s, s.cycle + 1) && (IsMatrix(i) ==> |s.pipe| < k.height)
    ensures Timing(k, Launch(k, s, i), s.cycle + 1)
  {
    if IsMatrix(i) {
      var f := OnArray(k, s, i);
      if s.issued != [] {
        LaunchFollows(k, s, i);
      }
      TimedAppend(k, s.issued, f);
      StartsNow(k, s, i);
      hide Timed, StartOf, Latency, Follows;
    }
  }

  lemma StartsNow(k: Setup, s: Core, i: Inst)
    requires k.Valid()
    ensures StartOf(k, s, i) >= s.cycle && Latency(k, i) > 0
  {
  }

  /** The statistics add the gap wrongly: one issue adds twice the offset more than the cycles that no stream
      occupied the array. CoreSteps.BubbleIff says when that happens. */
  lemma BubbleOvercounts(k: Setup, s: Core, i: Inst)
    requires k.Valid() && s.pipe != [] && IsMatrix(i)
    ensures var last, start := s.pipe[|s.pipe| - 1], StartOf(k, s, i);
            var idle := start - (last.start + Offset(k, last, i));
            BubbleOf(k, s, i) == if idle > 0 then idle + 2 * Offset(k, last, i) else 0
  {
  }

  // The timing of the vector unit ---------------------------------------------------------------------

  /** One operation at a time; it occupies the unit until its finish cycle, and at least to the next cycle. */
  ghost predicate VectorTiming(s: Core, due: nat) {
    && |s.vector| <= 1
    && (s.vector != [] ==> s.vector[0].start < due <= Max(s.vector[0].start + 1, s.vector[0].finish))
    && (forall i :: 0 <= i < |s.vectorDone| ==>
          s.vectorDone[i].at == Max(s.vectorDone[i].op.start + 1, s.vectorDone[i].op.finish) <= s.cycle)
    && (forall i, j :: 0 <= i < j < |s.vectorDone| ==> s.vectorDone[i].at <= s.vectorDone[j].op.start)
    && (s.vector != [] ==> forall i :: 0 <= i < |s.vectorDone| ==> s.vectorDone[i].at <= s.vector[0].start)
  }

  lemma FinishVectorTiming(s: Core)
    requires VectorTiming(s, s.cycle) && FinishVector(s).Next?
    ensures VectorTiming(FinishVector(s).core, s.cycle + 1)
  {
    hide CanFill, FilledAt;
  }

  lemma LaunchVectorTiming(k: Setup, s: Core, i: Inst)
    requires k.Valid() && VectorTiming(s, s.cycle + 1) && (!IsMatrix(i) ==> s.vector == [])
    ensures VectorTiming(Launch(k, s, i), s.cycle + 1)
  {
    hide StartOf, BubbleOf, Latency;
  }

  lemma VectorTimingSame(s: Core, t: Core, due: nat)
    requires VectorTiming(s, due) && s.vector == t.vector && s.vectorDone == t.vectorDone && s.cycle <= t.cycle
    ensures VectorTiming(t, due)
  {
  }

  lemma TimingSame(k: Setup, s: Core, t: Core, due: nat)
    requires k.Valid() && Timing(k, s, due)
    requires s.pipe == t.pipe && s.issued == t.issued && s.retired == t.retired && s.issues == t.issues
    requires s.cycle <= t.cycle
    ensures Timing(k, t, due)
  {
  }

  /** Both pipelines keep time. */
  ghost predicate Clocked(k: Setup, s: Core, due: nat)
    requires k.Valid()
  {
    Timing(k, s, due) && VectorTiming(s, due)
  }

  /** Nothing the pipelines know of has changed. */
  lemma ClockedSame(k: Setup, s: Core, t: Core, due: nat)
    requires k.Valid() && Clocked(k, s, due) && s.cycle <= t.cycle
    requires s.pipe == t.pipe && s.issued == t.issued && s.retired == t.retired && s.issues == t.issues
    requires s.vector == t.vector && s.vectorDone == t.vectorDone
    ensures Clocked(k, t, due)
  {
    hide Timing, VectorTiming;
    TimingSame(k, s, t, due);
    VectorTimingSame(s, t, due);
  }

  lemma UpToIssueClocked(k: Setup, s: Core)
    requires k.Valid() && Clocked(k, s, s.cycle) && UpToIssue(k, s).Next?
    ensures var t := UpToIssue(k, s).core; Clocked(k, t, t.cycle + 1) && t.cycle == s.cycle
  {
    hide Timing, VectorTiming, CanFill, FilledAt, CanAllocate, Allocate;
    var s1 := FinishCompute(s).core;
    FinishComputeTiming(k, s);
    VectorTimingSame(s, s1, s.cycle);
    var s2 := FinishVector(s1).core;
    FinishVectorTiming(s1);
    TimingSame(k, s1, s2, s.cycle + 1);
    ClockedSame(k, s2, HandleLd(k, s2).core, s.cycle + 1);
  }

  lemma IssueExClocked(k: Setup, s: Core)
    requires k.Valid() && Clocked(k, s, s.cycle + 1) && IssueEx(k, s).Next?
    ensures var t := IssueEx(k, s).core; Clocked(k, t, t.cycle + 1) && t.cycle == s.cycle
  {
    hide Timing, VectorTiming, CanReserve, Reserve, Launch, Ready;
    if s.ex != [] && CanIssue(k, s, s.ex[0]) {
      var r := Reserved(k, s);
      ClockedSame(k, s, r, s.cycle + 1);
      LaunchTiming(k, r, s.ex[0]);
      LaunchVectorTiming(k, r, s.ex[0]);
      LaunchQueues(k, r, s.ex[0]);
    }
  }

  /** A cycle keeps time, whatever the scratchpads hold. */
  lemma TickClocked(k: Setup, s: Core)
    requires k.Valid() && Clocked(k, s, s.cycle) && Tick(k, s).Next?
    ensures Clocked(k, Tick(k, s).core, Tick(k, s).core.cycle)
  {
    hide Clocked, UpToIssue, IssueEx, Ready;
    UpToIssueClocked(k, s);
    var s3 := UpToIssue(k, s).core;
    IssueExClocked(k, s3);
    var s4 := IssueEx(k, s3).core;
    ClockedSame(k, s4, Tick(k, s).core, s4.cycle + 1);
  }

  // The scoreboard ------------------------------------------------------------------------------------

  ghost function Dests(p: seq<Flying>): multiset<Loc> {
    if p == [] then multiset{} else multiset{Dest(p[0].inst)} + Dests(p[1..])
  }

  lemma {:induction false} DestsAppend(p: seq<Flying>, f: Flying)
    ensures Dests(p + [f]) == Dests(p) + multiset{Dest(f.inst)}
  {
    if p == [] {
      assert p + [f] == [f] && [f][1..] == [];
    } else {
      assert (p + [f])[1..] == p[1..] + [f];
      DestsAppend(p[1..], f);
    }
  }

  lemma {:induction false} DestIn(p: seq<Flying>, n: nat)
    requires n < |p|
    ensures Dest(p[n].inst) in Dests(p)
  {
    if n > 0 {
      DestIn(p[1..], n - 1);
    }
  }

  lemma {:induction false} DestsFrom(p: seq<Flying>, l: Loc) returns (n: nat)
    requires l in Dests(p)
    ensures n < |p| && Dest(p[n].inst) == l
  {
    if Dest(p[0].inst) == l {
      n := 0;
    } else {
      var m := DestsFrom(p[1..], l);
      n := m + 1;
    }
  }

  /** The writes on their way to each location. */
  ghost function Writers(s: Core): multiset<Loc> {
    Dests(s.pipe) + Dests(s.vector) + s.loads
  }

  /** A location that is still written is allocated and waits for at least those writes; for exactly those, if
      no instruction initialises with zeroes. */
  ghost predicate Scored(b: Banks, w: multiset<Loc>, plain: bool, l: Loc) {
    var table, a := b.At(l).table, l.address;
    (w[l] > 0 ==> a in table) && (a in table ==> w[l] <= table[a].remain && (plain ==> w[l] == table[a].remain))
  }

  ghost predicate Board(k: Setup, b: Banks, w: multiset<Loc>, plain: bool) {
    (forall l :: Inv(k.Of(l), b.At(l))) && (forall l :: Scored(b, w, plain, l))
  }

  /** A change of one location's entry. */
  lemma Put(k: Setup, b: Banks, w: multiset<Loc>, plain: bool, l: Loc, h: Half, w': multiset<Loc>)
    requires Board(k, b, w, plain) && Inv(k.Of(l), h)
    requires h.table - {l.address} == b.At(l).table - {l.address}
    requires w' == w[l := w'[l]]
    requires Scored(b.With(l, h), w', plain, l)
    ensures Board(k, b.With(l, h), w', plain)
  {
    hide Inv;
    forall x
      ensures Inv(k.Of(x), b.With(l, h).At(x))
    {
      assert Inv(k.Of(x), b.At(x));
    }
    forall x
      ensures Scored(b.With(l, h), w', plain, x)
    {
      if x != l {
        assert Scored(b, w, plain, x);
        OtherEntry(b, l, h, x);
        assert w'[x] == w[x];
      }
    }
  }

  lemma OtherEntry(b: Banks, l: Loc, h: Half, x: Loc)
    requires h.table - {l.address} == b.At(l).table - {l.address} && x != l
    ensures x.address in b.With(l, h).At(x).table <==> x.address in b.At(x).table
    ensures x.address in b.At(x).table ==> b.With(l, h).At(x).table[x.address] == b.At(x).table[x.address]
  {
    if x.address != l.address {
      assert x.address in h.table - {l.address} <==> x.address in h.table;
      assert x.address in h.table ==> (h.table - {l.address})[x.address] == h.table[x.address];
      assert x.address in b.At(l).table - {l.address} <==> x.address in b.At(l).table;
      assert x.address in b.At(l).table ==> (b.At(l).table - {l.address})[x.address] == b.At(l).table[x.address];
    }
  }

  /** A write that is on its way finds the entry fill asserts. */
  lemma FillScores(k: Setup, b: Banks, w: multiset<Loc>, plain: bool, l: Loc)
    requires Board(k, b, w, plain) && l in w
    ensures CanFill(b, l) && Board(k, FilledAt(b, l), w - multiset{l}, plain)
  {
    assert Inv(k.Of(l), b.At(l)) && Scored(b, w, plain, l);
    StepKeeps(k.Of(l), b.At(l), Scratchpad.Event.Fill(l.address));
    var h := Filled(b.At(l), l.address);
    assert h.table - {l.address} == b.At(l).table - {l.address};
    Put(k, b, w, plain, l, h, w - multiset{l});
  }

  lemma ReserveScores(k: Setup, b: Banks, w: multiset<Loc>, plain: bool, i: Inst)
    requires Board(k, b, w, plain) && CanReserve(k, b, i) && Announced(i) >= 1 && (plain ==> Announced(i) == 1)
    ensures Board(k, Reserve(k, b, i), w + multiset{Dest(i)}, plain)
  {
    var l := Dest(i);
    var h := b.At(l);
    assert Inv(k.Of(l), h) && Scored(b, w, plain, l);
    var e := if Allocated(h, l.address) then Scratchpad.Event.CountUp(l.address)
             else Scratchpad.Event.Prefetch(l.address, i.size, Announced(i));
    StepKeeps(k.Of(l), h, e);
    var h' := Scratchpad.Step(k.Of(l), h, e);
    assert h'.table - {l.address} == h.table - {l.address};
    Put(k, b, w, plain, l, h', w + multiset{l});
  }

  lemma LoadScores(k: Setup, b: Banks, w: multiset<Loc>, plain: bool, l: Loc, size: nat)
    requires Board(k, b, w, plain) && CanAllocate(k, b, l, size) && size >= 1
    ensures Board(k, Allocate(k, b, l, size, size), w[l := w[l] + size], plain)
  {
    assert Inv(k.Of(l), b.At(l)) && Scored(b, w, plain, l);
    StepKeeps(k.Of(l), b.At(l), Scratchpad.Event.Prefetch(l.address, size, size));
    var h := Prefetched(k.Of(l), b.At(l), l.address, size, size);
    assert h.table - {l.address} == b.At(l).table - {l.address};
    Put(k, b, w, plain, l, h, w[l := w[l] + size]);
  }

  /** No write is on its way to the half. */
  ghost predicate Quiet(w: multiset<Loc>, accum: bool, half: BufferId) {
    forall l :: l in w ==> l.accum != accum || l.half != half
  }

  lemma FlushScores(k: Setup, b: Banks, w: multiset<Loc>, plain: bool, l: Loc)
    requires Board(k, b, w, plain) && Quiet(w, l.accum, l.half)
    ensures Board(k, b.With(l, CLEARED), w, plain)
  {
    forall x
      ensures Inv(k.Of(x), b.With(l, CLEARED).At(x))
    {
      assert Inv(k.Of(x), b.At(x));
      FitsNothing(k.Of(x));
    }
    forall x
      ensures Scored(b.With(l, CLEARED), w, plain, x)
    {
      assert Scored(b, w, plain, x);
    }
  }

  /** A location that reads as a hit has no write on its way; without zero initialisation that is all it takes
      for an allocated one. */
  lemma HitMeansSettled(k: Setup, b: Banks, w: multiset<Loc>, plain: bool, l: Loc)
    requires Board(k, b, w, plain)
    ensures Ready(b, l) ==> l !in w
    ensures plain ==> (Ready(b, l) <==> Allocated(b.At(l), l.address) && l !in w)
  {
    assert Inv(k.Of(l), b.At(l)) && Scored(b, w, plain, l);
  }

  // What every phase and every cycle keeps ------------------------------------------------------------

  /** A load asks for as many words as it reserves, and nothing is reserved for no write at all. */
  predicate WellFormed(i: Inst, plain: bool) {
    && (i.opcode.MovIn? ==> |i.srcs| == i.size >= 1)
    && Announced(i) >= 1 && (plain ==> Announced(i) == 1)
  }

  ghost predicate Queues(s: Core, plain: bool) {
    && |s.ex| <= 1
    && (forall i :: i in s.ex ==> WellFormed(i, plain) && !i.opcode.MovIn? && !i.opcode.MovOut?)
    && (forall i :: i in s.ld ==> WellFormed(i, plain) && i.opcode.MovIn?)
  }

  /** `due` is the current cycle before the head checks and the next one after them. */
  ghost predicate CoreInv(k: Setup, s: Core, plain: bool, due: nat)
    requires k.Valid()
  {
    Clocked(k, s, due) && Board(k, s.banks, Writers(s), plain) && Queues(s, plain)
  }

  lemma TakeOut(rest: multiset<Loc>, other: multiset<Loc>, loads: multiset<Loc>, l: Loc)
    ensures (multiset{l} + rest) + other + loads - multiset{l} == rest + other + loads
    ensures other + (multiset{l} + rest) + loads - multiset{l} == other + rest + loads
  {
  }

  lemma ComputeWriters(s: Core)
    requires s.pipe != [] && FinishCompute(s).Next? && s.pipe[0].finish <= s.cycle
    ensures Writers(FinishCompute(s).core) == Writers(s) - multiset{Dest(s.pipe[0].inst)}
  {
    hide CanFill, FilledAt, Dest;
    TakeOut(Dests(s.pipe[1..]), Dests(s.vector), s.loads, Dest(s.pipe[0].inst));
  }

  lemma VectorWriters(s: Core)
    requires s.vector != [] && FinishVector(s).Next? && s.vector[0].finish <= s.cycle
    ensures Writers(FinishVector(s).core) == Writers(s) - multiset{Dest(s.vector[0].inst)}
  {
    hide CanFill, FilledAt, Dest;
    TakeOut(Dests(s.vector[1..]), Dests(s.pipe), s.loads, Dest(s.vector[0].inst));
  }

  lemma FinishComputeKeeps(k: Setup, s: Core, plain: bool)
    requires k.Valid() && CoreInv(k, s, plain, s.cycle)
    ensures FinishCompute(s).Next?
    ensures var t := FinishCompute(s).core;
            && Timing(k, t, t.cycle + 1) && VectorTiming(t, t.cycle) && Board(k, t.banks, Writers(t), plain)
            && Queues(t, plain)
            && t.cycle == s.cycle
  {
    hide Timing, VectorTiming, Board, CanFill, FilledAt;
    if s.pipe != [] && s.pipe[0].finish <= s.cycle {
      var l := Dest(s.pipe[0].inst);
      FillScores(k, s.banks, Writers(s), plain, l);
      ComputeWriters(s);
    }
    FinishComputeTiming(k, s);
    VectorTimingSame(s, FinishCompute(s).core, s.cycle);
  }

  lemma FinishVectorKeeps(k: Setup, s: Core, plain: bool)
    requires k.Valid() && Timing(k, s, s.cycle + 1) && VectorTiming(s, s.cycle) && Board(k, s.banks, Writers(s), plain)
          && Queues(s, plain)
    ensures FinishVector(s).Next?
    ensures var t := FinishVector(s).core; CoreInv(k, t, plain, t.cycle + 1) && t.cycle == s.cycle
  {
    hide Timing, VectorTiming, Board, CanFill, FilledAt;
    if s.vector != [] && s.vector[0].finish <= s.cycle {
      var l := Dest(s.vector[0].inst);
      FillScores(k, s.banks, Writers(s), plain, l);
      VectorWriters(s);
    }
    FinishVectorTiming(s);
    TimingSame(k, s, FinishVector(s).core, s.cycle + 1);
  }

  lemma HandleLdKeeps(k: Setup, s: Core, plain: bool)
    requires k.Valid() && CoreInv(k, s, plain, s.cycle + 1)
    ensures !HandleLd(k, s).BadFill?
    ensures HandleLd(k, s).Next? ==>
            var t := HandleLd(k, s).core; CoreInv(k, t, plain, t.cycle + 1) && t.cycle == s.cycle
  {
    hide Timing, VectorTiming, Board, CanAllocate, Allocate, Announced;
    if HandleLd(k, s).Next? && s.ld != [] {
      var i, t := s.ld[0], HandleLd(k, s).core;
      LoadScores(k, s.banks, Writers(s), plain, Dest(i), i.size);
      assert Writers(t) == Writers(s)[Dest(i) := Writers(s)[Dest(i)] + i.size];
      ClockedSame(k, s, t, s.cycle + 1);
    }
  }

  lemma LaunchWriters(k: Setup, s: Core, i: Inst)
    requires k.Valid()
    ensures Writers(Launch(k, s, i)) == Writers(s) + multiset{Dest(i)}
  {
    hide Dest, IsMatrix, BubbleOf, StartOf, Latency, Dests;
    PutIn(Dests(s.pipe), Dests(s.vector), s.loads, Dest(i));
    DestsAppend(s.pipe, OnArray(k, s, i));
    DestsAppend(s.vector, OnVector(s, i));
  }

  lemma PutIn(a: multiset<Loc>, b: multiset<Loc>, loads: multiset<Loc>, l: Loc)
    ensures (a + multiset{l}) + b + loads == a + b + loads + multiset{l}
    ensures a + (b + multiset{l}) + loads == a + b + loads + multiset{l}
  {
  }

  /** The front of the queue of compute instructions, its destination reserved. */
  function Reserved(k: Setup, s: Core): Core
    requires s.ex != [] && CanReserve(k, s.banks, s.ex[0])
  {
    s.(banks := Reserve(k, s.banks, s.ex[0]), ex := s.ex[1..])
  }

  lemma ReservedKeeps(k: Setup, s: Core, plain: bool)
    requires k.Valid() && CoreInv(k, s, plain, s.cycle + 1) && s.ex != [] && CanReserve(k, s.banks, s.ex[0])
    ensures var t := Reserved(k, s);
            && Clocked(k, t, s.cycle + 1) && Queues(t, plain)
            && Board(k, t.banks, Writers(t) + multiset{Dest(s.ex[0])}, plain)
  {
    hide Timing, VectorTiming, Board, CanReserve, Reserve, Announced, Dest;
    assert s.ex[0] in s.ex;
    ReserveScores(k, s.banks, Writers(s), plain, s.ex[0]);
    ClockedSame(k, s, Reserved(k, s), s.cycle + 1);
  }

  lemma LaunchKeeps(k: Setup, s: Core, plain: bool, i: Inst)
    requires k.Valid() && Clocked(k, s, s.cycle + 1) && Queues(s, plain)
    requires Board(k, s.banks, Writers(s) + multiset{Dest(i)}, plain)
    requires if IsMatrix(i) then |s.pipe| < k.height else s.vector == []
    ensures CoreInv(k, Launch(k, s, i), plain, s.cycle + 1) && Launch(k, s, i).cycle == s.cycle
  {
    LaunchWriters(k, s, i);
    LaunchTiming(k, s, i);
    LaunchVectorTiming(k, s, i);
    LaunchQueues(k, s, i);
    QueuesSame(s, Launch(k, s, i), plain);
    hide Timing, VectorTiming, Board, Launch, Writers, Dest, Queues;
  }

  lemma QueuesSame(s: Core, t: Core, plain: bool)
    requires Queues(s, plain) && t.ex == s.ex && t.ld == s.ld
    ensures Queues(t, plain)
  {
  }

  lemma IssueExKeeps(k: Setup, s: Core, plain: bool)
    requires k.Valid() && CoreInv(k, s, plain, s.cycle + 1)
    ensures !IssueEx(k, s).BadFill?
    ensures IssueEx(k, s).Next? ==> var t := IssueEx(k, s).core; CoreInv(k, t, plain, t.cycle + 1) && t.cycle == s.cycle
  {
    hide CoreInv, Timing, VectorTiming, Board, CanReserve, Reserve, Launch, Ready, Queues;
    if IssueEx(k, s).Next? && s.ex != [] && CanIssue(k, s, s.ex[0]) {
      ReservedKeeps(k, s, plain);
      LaunchKeeps(k, Reserved(k, s), plain, s.ex[0]);
    }
  }

  lemma LaunchQueues(k: Setup, s: Core, i: Inst)
    requires k.Valid()
    ensures var t := Launch(k, s, i);
            t.ex == s.ex && t.ld == s.ld && t.st == s.st && t.banks == s.banks && t.cycle == s.cycle
              && t.loads == s.loads
  {
  }

  /** No compute instruction is issued, and no store is sent, while a write to something it reads is on its way. */
  lemma ReadsAreSettled(k: Setup, s: Core, plain: bool, due: nat)
    requires k.Valid() && CoreInv(k, s, plain, due)
    ensures forall i, a :: CanIssue(k, s, i) && a in i.srcs ==> Src(i, a) !in Writers(s)
    ensures HandleSt(s).st != s.st ==> Dest(s.st[0]) !in Writers(s)
  {
    hide Ready, Timing, VectorTiming, Board, Queues;
    forall i, a | CanIssue(k, s, i) && a in i.srcs
      ensures Src(i, a) !in Writers(s)
    {
      HitMeansSettled(k, s.banks, Writers(s), plain, Src(i, a));
    }
    if HandleSt(s).st != s.st {
      HitMeansSettled(k, s.banks, Writers(s), plain, Dest(s.st[0]));
    }
  }

  lemma UpToIssueKeeps(k: Setup, s: Core, plain: bool)
    requires k.Valid() && CoreInv(k, s, plain, s.cycle)
    ensures !UpToIssue(k, s).BadFill?
    ensures UpToIssue(k, s).Next? ==>
            var t := UpToIssue(k, s).core; CoreInv(k, t, plain, t.cycle + 1) && t.cycle == s.cycle
  {
    hide CoreInv, FinishCompute, FinishVector, HandleLd, Timing, VectorTiming, Board, Queues;
    FinishComputeKeeps(k, s, plain);
    FinishVectorKeeps(k, FinishCompute(s).core, plain);
    HandleLdKeeps(k, FinishVector(FinishCompute(s).core).core, plain);
  }

  lemma TickKeeps(k: Setup, s: Core, plain: bool)
    requires k.Valid() && CoreInv(k, s, plain, s.cycle)
    ensures !Tick(k, s).BadFill?
    ensures Tick(k, s).Next? ==> var t := Tick(k, s).core; CoreInv(k, t, plain, t.cycle) && t.cycle == s.cycle + 1
  {
    hide CoreInv, UpToIssue, IssueEx, HandleSt;
    UpToIssueKeeps(k, s, plain);
    if UpToIssue(k, s).Next? {
      var s3 := UpToIssue(k, s).core;
      IssueExKeeps(k, s3, plain);
      if IssueEx(k, s3).Next? {
        TickEnds(k, IssueEx(k, s3).core, plain);
      }
    }
  }

  lemma TickEnds(k: Setup, s: Core, plain: bool)
    requires k.Valid() && CoreInv(k, s, plain, s.cycle + 1)
    ensures var t := HandleSt(s); t.cycle == s.cycle && CoreInv(k, t.(cycle := t.cycle + 1), plain, s.cycle + 1)
  {
    hide Timing, VectorTiming, Board, Ready;
    var t := HandleSt(s).(cycle := s.cycle + 1);
    ClockedSame(k, s, t, s.cycle + 1);
  }

  // Whole runs ----------------------------------------------------------------------------------------

  datatype Event =
    | TickOne
    | DispatchOne(inst: Inst)
    | RespondOne(loc: Loc)
    | WrittenOne
    | FlushHalf(accum: bool, half: BufferId)

  /** Memory answers only requests that were sent; a half is flushed when nothing is on its way to it. */
  ghost predicate Possible(s: Core, plain: bool, e: Event) {
    match e
    case TickOne => true
    case DispatchOne(i) => WellFormed(i, plain)
    case RespondOne(l) => l in s.loads
    case WrittenOne => s.writes > 0
    case FlushHalf(accum, half) => Quiet(Writers(s), accum, half)
  }

  function Flushed(s: Core, accum: bool, half: BufferId): Core {
    s.(banks := s.banks.With(Loc(accum, half, 0), CLEARED))
  }

  function StepOne(k: Setup, s: Core, e: Event): Outcome
    requires k.Valid()
  {
    match e
    case TickOne => Tick(k, s)
    case DispatchOne(i) => Dispatch(k, s, i)
    case RespondOne(l) => Respond(s, l)
    case WrittenOne => Next(Written(s))
    case FlushHalf(accum, half) => Next(Flushed(s, accum, half))
  }

  lemma DispatchKeeps(k: Setup, s: Core, plain: bool, i: Inst)
    requires k.Valid() && CoreInv(k, s, plain, s.cycle) && WellFormed(i, plain)
    ensures !Dispatch(k, s, i).BadFill?
    ensures Dispatch(k, s, i).Next? ==> var t := Dispatch(k, s, i).core; CoreInv(k, t, plain, t.cycle)
  {
    hide Timing, VectorTiming, Board, Ready, CanIssue, CanAllocate, Queues, Writers;
    if Dispatch(k, s, i).Next? {
      var t := Dispatch(k, s, i).core;
      DispatchQueues(k, s, plain, i);
      ClockedSame(k, s, t, s.cycle);
      WritersSame(s, t);
    }
  }

  lemma DispatchQueues(k: Setup, s: Core, plain: bool, i: Inst)
    requires Queues(s, plain) && WellFormed(i, plain) && Dispatch(k, s, i).Next?
    ensures Queues(Dispatch(k, s, i).core, plain)
  {
    hide Ready, CanIssue, CanAllocate, WellFormed;
  }

  lemma WritersSame(s: Core, t: Core)
    requires s.pipe == t.pipe && s.vector == t.vector && s.loads == t.loads
    ensures Writers(s) == Writers(t)
  {
  }

  lemma RespondKeeps(k: Setup, s: Core, plain: bool, l: Loc)
    requires k.Valid() && CoreInv(k, s, plain, s.cycle) && l in s.loads
    ensures Respond(s, l).Next? && Respond(s, l).core.cycle == s.cycle && CoreInv(k, Respond(s, l).core, plain, s.cycle)
  {
    hide Timing, VectorTiming, Board, CanFill, FilledAt, Writers;
    assert l in Writers(s) by { WritersHold(s, l); }
    FillScores(k, s.banks, Writers(s), plain, l);
    RespondWriters(s, l);
    ClockedSame(k, s, Respond(s, l).core, s.cycle);
  }

  lemma WritersHold(s: Core, l: Loc)
    requires l in s.loads
    ensures l in Writers(s)
  {
    hide Dests;
  }

  lemma RespondWriters(s: Core, l: Loc)
    requires l in s.loads && Respond(s, l).Next?
    ensures Writers(Respond(s, l).core) == Writers(s) - multiset{l}
  {
    hide CanFill, FilledAt, Dests;
  }

  lemma WrittenKeeps(k: Setup, s: Core, plain: bool)
    requires k.Valid() && CoreInv(k, s, plain, s.cycle)
    ensures CoreInv(k, Written(s), plain, s.cycle) && Written(s).cycle == s.cycle
  {
    hide Timing, VectorTiming, Board, Queues;
    ClockedSame(k, s, Written(s), s.cycle);
    QueuesSame(s, Written(s), plain);
  }

  lemma FlushKeeps(k: Setup, s: Core, plain: bool, accum: bool, half: BufferId)
    requires k.Valid() && CoreInv(k, s, plain, s.cycle) && Quiet(Writers(s), accum, half)
    ensures CoreInv(k, Flushed(s, accum, half), plain, s.cycle)
  {
    hide Timing, VectorTiming, Board, Quiet;
    FlushScores(k, s.banks, Writers(s), plain, Loc(accum, half, 0));
    ClockedSame(k, s, Flushed(s, accum, half), s.cycle);
  }

  /** The assert in fill never fails, and every invariant is kept. */
  lemma StepOneKeeps(k: Setup, s: Core, plain: bool, e: Event)
    requires k.Valid() && CoreInv(k, s, plain, s.cycle) && Possible(s, plain, e)
    ensures !StepOne(k, s, e).BadFill?
    ensures StepOne(k, s, e).Next? ==> var t := StepOne(k, s, e).core; CoreInv(k, t, plain, t.cycle)
  {
    hide CoreInv, Tick, Dispatch, Respond, WellFormed, Quiet;
    match e
    case TickOne => TickKeeps(k, s, plain);
    case DispatchOne(i) => DispatchKeeps(k, s, plain, i);
    case RespondOne(l) => RespondKeeps(k, s, plain, l);
    case WrittenOne => WrittenKeeps(k, s, plain);
    case FlushHalf(accum, half) => FlushKeeps(k, s, plain, accum, half);
  }

  /** The events lead from s to t: the core goes on through all of them. */
  ghost predicate Reaches(k: Setup, s: Core, es: seq<Event>, t: Core)
    requires k.Valid()
    decreases |es|
  {
    if es == [] then s == t
    else StepOne(k, s, es[0]).Next? && Reaches(k, StepOne(k, s, es[0]).core, es[1..], t)
  }

  /** Every event is possible when it comes. */
  ghost predicate Orderly(k: Setup, plain: bool, s: Core, es: seq<Event>)
    requires k.Valid()
    decreases |es|
  {
    es != [] && StepOne(k, s, es[0]).Next? ==>
      Possible(s, plain, es[0]) && Orderly(k, plain, StepOne(k, s, es[0]).core, es[1..])
  }

  ghost predicate Runs(k: Setup, plain: bool, s: Core, es: seq<Event>, t: Core)
    requires k.Valid()
  {
    Reaches(k, s, es, t) && Orderly(k, plain, s, es)
  }

  lemma {:induction false} ReachesThrough(k: Setup, plain: bool, s: Core, es: seq<Event>, t: Core, fs: seq<Event>,
                                          u: Core)
    requires k.Valid() && Reaches(k, s, es, t) && Reaches(k, t, fs, u)
    ensures Reaches(k, s, es + fs, u)
    ensures Orderly(k, plain, s, es) && Orderly(k, plain, t, fs) ==> Orderly(k, plain, s, es + fs)
    decreases |es|
  {
    hide StepOne, Possible;
    if es == [] {
      assert es + fs == fs;
    } else {
      assert (es + fs)[1..] == es[1..] + fs;
      ReachesThrough(k, plain, StepOne(k, s, es[0]).core, es[1..], t, fs, u);
    }
  }

  lemma ReachesOne(k: Setup, plain: bool, s: Core, e: Event)
    requires k.Valid() && StepOne(k, s, e).Next?
    ensures Reaches(k, s, [e], StepOne(k, s, e).core)
    ensures Possible(s, plain, e) ==> Orderly(k, plain, s, [e])
  {
    hide StepOne, Possible;
    assert [e][1..] == [];
    ReachesNothing(k, plain, StepOne(k, s, e).core);
  }

  lemma ReachesNothing(k: Setup, plain: bool, s: Core)
    requires k.Valid()
    ensures Reaches(k, s, [], s) && Orderly(k, plain, s, [])
  {
  }

  /** Any event keeps time: any dispatch, any answer, the flush of any half. */
  lemma StepClocked(k: Setup, s: Core, e: Event)
    requires k.Valid() && Clocked(k, s, s.cycle) && StepOne(k, s, e).Next?
    ensures var t := StepOne(k, s, e).core; Clocked(k, t, t.cycle)
  {
    hide Clocked, Tick, CanAllocate, Ready, CanIssue, CanFill, FilledAt;
    if e.TickOne? {
      TickClocked(k, s);
    } else {
      ClockedSame(k, s, StepOne(k, s, e).core, s.cycle);
    }
  }

  lemma {:induction false} ReachesClocked(k: Setup, s: Core, es: seq<Event>, t: Core)
    requires k.Valid() && Clocked(k, s, s.cycle) && Reaches(k, s, es, t)
    ensures Clocked(k, t, t.cycle)
    decreases |es|
  {
    if es != [] {
      hide Clocked, StepOne;
      StepClocked(k, s, es[0]);
      ReachesClocked(k, StepOne(k, s, es[0]).core, es[1..], t);
    }
  }

  lemma {:induction false} RunKeeps(k: Setup, plain: bool, s: Core, es: seq<Event>, t: Core)
    requires k.Valid() && CoreInv(k, s, plain, s.cycle) && Runs(k, plain, s, es, t)
    ensures CoreInv(k, t, plain, t.cycle)
    decreases |es|
  {
    if es != [] {
      hide CoreInv, StepOne, Possible;
      StepOneKeeps(k, s, plain, es[0]);
      RunKeeps(k, plain, StepOne(k, s, es[0]).core, es[1..], t);
    }
  }

  lemma ResetKeeps(k: Setup, plain: bool)
    requires k.Valid()
    ensures CoreInv(k, RESET, plain, 0)
  {
    EmptyBoard(k, plain);
    assert Writers(RESET) == multiset{};
    ResetClocked(k);
    assert Queues(RESET, plain);
    hide Board, Clocked;
  }

  lemma ResetClocked(k: Setup)
    requires k.Valid()
    ensures Clocked(k, RESET, 0)
  {
  }

  lemma EmptyBoard(k: Setup, plain: bool)
    ensures Board(k, RESET.banks, multiset{}, plain)
  {
    forall l: Loc
      ensures Inv(k.Of(l), RESET.banks.At(l)) && Scored(RESET.banks, multiset{}, plain, l)
    {
      assert RESET.banks.At(l) == CLEARED;
      FitsNothing(k.Of(l));
    }
  }

  /** Over every run, whatever is dispatched, answered and flushed in between. Matrix instructions start at least
      a stream apart, and behind a preload at least the array's height; they finish in the order they were issued,
      each retired exactly in its finish cycle; whatever was issued is retired or in the pipeline. Vector operations
      follow one another: each occupies the unit until its finish cycle, and at least to the next cycle. */
  lemma EveryRunIsTimed(k: Setup, es: seq<Event>, t: Core)
    requires k.Valid() && Reaches(k, RESET, es, t)
    ensures forall i :: 0 < i < |t.issued| ==>
              && t.issued[i - 1].start + Max(t.issued[i - 1].inst.computeSize, 4) <= t.issued[i].start
              && (t.issued[i].inst.opcode.GemmPreload? ==> t.issued[i - 1].start + k.height <= t.issued[i].start)
    ensures forall i, j :: 0 <= i < j < |t.issued| ==> t.issued[i].finish < t.issued[j].finish
    ensures t.issued == Ops(t.retired) + t.pipe && |t.pipe| <= k.height
    ensures forall i :: 0 <= i < |t.retired| ==> t.retired[i].at == t.retired[i].op.finish
    ensures forall i :: 0 <= i < |t.vectorDone| ==>
              t.vectorDone[i].at == Max(t.vectorDone[i].op.start + 1, t.vectorDone[i].op.finish)
    ensures forall i, j :: 0 <= i < j < |t.vectorDone| ==> t.vectorDone[i].at <= t.vectorDone[j].op.start
  {
    ResetClocked(k);
    ReachesClocked(k, RESET, es, t);
    forall i | 0 < i < |t.issued|
      ensures Follows(k, t.issued[i - 1], t.issued[i])
    {
    }
    forall i, j | 0 <= i < j < |t.issued|
      ensures t.issued[i].finish < t.issued[j].finish
    {
      FinishesInOrder(k, t.issued, i, j);
    }
    hide Reaches;
  }

  /** In every reachable state the assert in fill holds whatever happens next; whatever can be issued, there or
      later in the cycle, reads nothing that is still being written; and without zero initialisation a location
      reads as a hit exactly when it is allocated and no write to it is on its way. */
  lemma EveryRunIsSafe(k: Setup, plain: bool, es: seq<Event>, t: Core, e: Event)
    requires k.Valid() && Runs(k, plain, RESET, es, t)
    ensures Possible(t, plain, e) ==> !StepOne(k, t, e).BadFill?
    ensures forall i, a :: CanIssue(k, t, i) && a in i.srcs ==> Src(i, a) !in Writers(t)
    ensures UpToIssue(k, t).Next? ==>
              var u := UpToIssue(k, t).core; forall i, a :: CanIssue(k, u, i) && a in i.srcs ==>
                Src(i, a) !in Writers(u)
    ensures forall l :: plain ==> (Ready(t.banks, l) <==> Allocated(t.banks.At(l), l.address) && l !in Writers(t))
  {
    hide CoreInv, CanIssue, StepOne, UpToIssue, Possible, Ready, Runs;
    ResetKeeps(k, plain);
    RunKeeps(k, plain, RESET, es, t);
    if Possible(t, plain, e) {
      StepOneKeeps(k, t, plain, e);
    }
    ReadsAreSettled(k, t, plain, t.cycle);
    UpToIssueKeeps(k, t, plain);
    if UpToIssue(k, t).Next? {
      ReadsAreSettled(k, UpToIssue(k, t).core, plain, t.cycle + 1);
    }
    forall l | plain
      ensures Ready(t.banks, l) <==> Allocated(t.banks.At(l), l.address) && l !in Writers(t)
    {
      BoardOf(k, t, plain);
      HitMeansSettled(k, t.banks, Writers(t), plain, l);
    }
  }

  lemma BoardOf(k: Setup, s: Core, plain: bool)
    requires k.Valid() && CoreInv(k, s, plain, s.cycle)
    ensures Board(k, s.banks, Writers(s), plain)
  {
  }

  /** The condition on flushes is exact: in any reachable state the scoreboard survives the flush of a half
      exactly if no write is on its way to it. */
  lemma FlushKeepsIff(k: Setup, b: Banks, w: multiset<Loc>, plain: bool, l: Loc)
    requires Board(k, b, w, plain)
    ensures Board(k, b.With(l, CLEARED), w, plain) <==> Quiet(w, l.accum, l.half)
  {
    if Quiet(w, l.accum, l.half) {
      FlushScores(k, b, w, plain, l);
    } else {
      var x :| x in w && x.accum == l.accum && x.half == l.half;
      assert !Scored(b.With(l, CLEARED), w, plain, x);
    }
  }

  /** After a flush the write of a pipeline, the vector unit or the memory finds the entry that fill asserts
      exactly if it was not to the flushed half. */
  lemma FlushUnderWriter(k: Setup, plain: bool, es: seq<Event>, t: Core, accum: bool, half: BufferId, l: Loc)
    requires k.Valid() && Runs(k, plain, RESET, es, t) && l in Writers(t)
    ensures CanFill(Flushed(t, accum, half).banks, l) <==> l.accum != accum || l.half != half
  {
    ResetKeeps(k, plain);
    RunKeeps(k, plain, RESET, es, t);
    BoardOf(k, t, plain);
    FillScores(k, t.banks, Writers(t), plain, l);
    hide CoreInv, Runs, Board, Writers;
  }

  // The class -----------------------------------------------------------------------------------------

  datatype Status = Running | AllocationRefused | FillAssertFails

  function StatusOf(o: Outcome): Status {
    match o case Next(_) => Running case Refused => AllocationRefused case BadFill => FillAssertFails
  }

  class SystolicWS {
    const k: Setup
    const spad: Sram
    const accSpad: Sram
    var coreCycle: nat
    var computePipeline: seq<Flying>
    var vectorPipeline: seq<Flying>
    var ldQueue: seq<Inst>
    var exQueue: seq<Inst>
    var stQueue: seq<Inst>
    var loads: multiset<Loc>
    var waitingWriteReqs: nat
    var marked: set<nat>
    var issueCount: nat
    var preloadCount: nat
    var bubbleCycle: nat
    ghost var issued: seq<Flying>
    ghost var retired: seq<Done>
    ghost var vectorDone: seq<Done>
    ghost var loaders: map<Loc, nat>

    ghost predicate Wired()
      reads this, spad, accSpad
    {
      k.Valid() && spad != accSpad && spad.Valid() && accSpad.Valid() && spad.cfg == k.spad && accSpad.cfg == k.accum
    }

    ghost function State(): Core
      reads this, spad, accSpad
      requires Wired()
    {
      Core(coreCycle, computePipeline, vectorPipeline, ldQueue, exQueue, stQueue, Banks(spad.Now(), accSpad.Now()),
           loads,
           waitingWriteReqs, marked, issueCount, preloadCount, bubbleCycle, issued, retired, vectorDone, loaders)
    }

    constructor (k: Setup, spad: Sram, accSpad: Sram)
      requires k.Valid() && spad != accSpad && spad.Valid() && accSpad.Valid() && spad.cfg == k.spad
               && accSpad.cfg == k.accum
      requires spad.Now() == [CLEARED, CLEARED] && accSpad.Now() == [CLEARED, CLEARED]
      ensures this.k == k && this.spad == spad && this.accSpad == accSpad && Wired() && State() == RESET
    {
      this.k, this.spad, this.accSpad := k, spad, accSpad;
      coreCycle, computePipeline, vectorPipeline, ldQueue, exQueue, stQueue := 0, [], [], [], [], [];
      loads, issueCount, preloadCount, bubbleCycle := multiset{}, 0, 0, 0;
      waitingWriteReqs, marked := 0, {};
      issued, retired, vectorDone, loaders := [], [], [], map[];
    }

    function BufferOf(l: Loc): Sram { if l.accum then accSpad else spad }

    /** One write arrives; false where the source asserts. */
    method FillAt(l: Loc) returns (ok: bool)
      requires Wired()
      modifies spad, accSpad
      ensures Wired() && ok == old(CanFill(State().banks, l))
      ensures State() == if ok then old(State()).(banks := FilledAt(old(State()).banks, l)) else old(State())
    {
      ok := BufferOf(l).CheckFillable(l.address, l.half);
      if ok {
        BufferOf(l).Fill(l.address, l.half);
      }
    }

    method FinishComputePipeline() returns (status: Status)
      requires Wired()
      modifies this, spad, accSpad
      ensures Wired() && status == StatusOf(FinishCompute(old(State())))
      ensures status.Running? ==> State() == FinishCompute(old(State())).core
    {
      if computePipeline != [] && computePipeline[0].finish <= coreCycle {
        var inst := computePipeline[0];
        hide CanFill, FilledAt, Dest;
        var ok := FillAt(Dest(inst.inst));
        if !ok { return FillAssertFails; }
        if inst.inst.last {
          marked := marked + {inst.inst.tile};
        }
        retired := retired + [Done(inst, coreCycle)];
        computePipeline := computePipeline[1..];
      }
      return Running;
    }

    method FinishVectorPipeline() returns (status: Status)
      requires Wired()
      modifies this, spad, accSpad
      ensures Wired() && status == StatusOf(FinishVector(old(State())))
      ensures status.Running? ==> State() == FinishVector(old(State())).core
    {
      if vectorPipeline != [] && vectorPipeline[0].finish <= coreCycle {
        var inst := vectorPipeline[0];
        hide CanFill, FilledAt, Dest;
        var ok := FillAt(Dest(inst.inst));
        if !ok { return FillAssertFails; }
        if inst.inst.last {
          marked := marked + {inst.inst.tile};
        }
        vectorDone := vectorDone + [Done(inst, coreCycle)];
        vectorPipeline := vectorPipeline[1..];
      }
      return Running;
    }

    method AllocateAt(l: Loc, size: nat, count: nat) returns (ok: bool)
      requires Wired()
      modifies spad, accSpad
      ensures Wired() && ok == old(CanAllocate(k, State().banks, l, size))
      ensures State() == if ok then old(State()).(banks := Allocate(k, old(State()).banks, l, size, count))
              else old(State())
    {
      ghost var s := State();
      ok := BufferOf(l).Prefetch(l.address, l.half, size, count);
      assert State().banks == Allocate(k, s.banks, l, size, count);
    }

    method SendLoads(l: Loc, n: nat)
      modifies this`loads
      ensures loads == old(loads)[l := old(loads)[l] + n]
    {
      for i := 0 to n
        invariant loads == old(loads)[l := old(loads)[l] + i]
      {
        loads := loads + multiset{l};
      }
    }

    /** The front load, its destination allocated, leaves its queue for the memory. */
    method PopLoad()
      requires Wired() && ldQueue != []
      modifies this`loads, this`loaders, this`ldQueue
      ensures var front := old(ldQueue)[0];
              && ldQueue == old(ldQueue)[1..] && loaders == old(loaders)[Dest(front) := front.tile]
              && loads == old(loads)[Dest(front) := old(loads)[Dest(front)] + |front.srcs|]
    {
      var front := ldQueue[0];
      SendLoads(Dest(front), |front.srcs|);
      loaders := loaders[Dest(front) := front.tile];
      ldQueue := ldQueue[1..];
    }

    method HandleLdInstQueue() returns (status: Status)
      requires Wired()
      modifies this, spad, accSpad
      ensures Wired() && status == StatusOf(HandleLd(k, old(State())))
      ensures status.Running? ==> State() == HandleLd(k, old(State())).core
    {
      hide CanAllocate, Allocate, Dest;
      if ldQueue != [] {
        var front := ldQueue[0];
        var ok := AllocateAt(Dest(front), front.size, front.size);
        if !ok { return AllocationRefused; }
        PopLoad();
      }
      return Running;
    }

    method CanIssueCompute(i: Inst) returns (can: bool)
      requires Wired()
      ensures can == CanIssue(k, State(), i)
    {
      can := true;
      for n := 0 to |i.srcs|
        invariant can == forall a :: a in i.srcs[..n] ==> Ready(State().banks, Src(i, a))
      {
        var l := Src(i, i.srcs[n]);
        var hit := BufferOf(l).CheckHit(l.address, l.half);
        can := can && hit;
        assert i.srcs[..n + 1] == i.srcs[..n] + [i.srcs[n]];
      }
      assert i.srcs[..|i.srcs|] == i.srcs;
      if IsMatrix(i) {
        if |computePipeline| >= k.height { can := false; }
      } else {
        if vectorPipeline != [] { can := false; }
      }
    }

    method ReserveAt(i: Inst) returns (ok: bool)
      requires Wired()
      modifies spad, accSpad
      ensures Wired() && ok == old(CanReserve(k, State().banks, i))
      ensures State() == if ok then old(State()).(banks := Reserve(k, old(State()).banks, i)) else old(State())
    {
      hide Allocate, CanAllocate;
      var l := Dest(i);
      var there := BufferOf(l).CheckAllocated(l.address, l.half);
      if there {
        BufferOf(l).CountUp(l.address, l.half);
        return true;
      }
      ok := AllocateAt(l, i.size, if i.zeroInit then i.size else 1);
    }

    /** The start cycle of a matrix instruction, and what its issue adds to the statistics. */
    method StartCycle(front: Inst) returns (start: nat)
      requires Wired()
      modifies this`preloadCount, this`bubbleCycle
      ensures Wired() && start == StartOf(k, old(State()), front)
      ensures preloadCount == old(preloadCount) + if front.opcode.GemmPreload? then 1 else 0
      ensures bubbleCycle == old(bubbleCycle) + BubbleOf(k, old(State()), front)
    {
      if front.opcode.GemmPreload? {
        preloadCount := preloadCount + 1;
      }
      if computePipeline != [] {
        var back := computePipeline[|computePipeline| - 1];
        var offset := Max(back.inst.computeSize, 4);
        if front.opcode.GemmPreload? {
          offset := Max(offset, k.height);
        }
        if back.start + offset < coreCycle {
          start := coreCycle;
          bubbleCycle := bubbleCycle + (coreCycle - back.start + offset);
        } else {
          start := back.start + offset;
        }
      } else {
        start := coreCycle;
        if front.opcode.GemmPreload? {
          start := start + k.height + k.height - 1;
        }
      }
    }

    method StartMatrix(front: Inst)
      requires Wired() && IsMatrix(front)
      modifies this
      ensures Wired() && State() == Launch(k, old(State()), front)
    {
      hide StartOf, BubbleOf;
      ghost var f0 := OnArray(k, State(), front);
      var start := StartCycle(front);
      var f := Flying(front, start, start + (k.height + k.width - 2 + Max(front.computeSize, 4)));
      assert f == f0;
      hide OnArray, OnVector;
      computePipeline := computePipeline + [f];
      issued := issued + [f];
      issueCount := issueCount + 1;
    }

    /** Starts the instruction on its unit. */
    method Start(front: Inst)
      requires Wired()
      modifies this
      ensures Wired() && State() == Launch(k, old(State()), front)
    {
      hide OnArray, StartOf, BubbleOf;
      if front.opcode.Gemm? || front.opcode.GemmPreload? {
        StartMatrix(front);
      } else {
        var cycles := match front.opcode case VectorOp(n) => n case _ => 0;
        vectorPipeline := vectorPipeline + [Flying(front, coreCycle, coreCycle + cycles)];
      }
    }

    method IssueExInst() returns (status: Status)
      requires Wired()
      modifies this, spad, accSpad
      ensures Wired() && status == StatusOf(IssueEx(k, old(State())))
      ensures status.Running? ==> State() == IssueEx(k, old(State())).core
    {
      hide Launch, Reserve, CanReserve, CanIssue;
      if exQueue != [] {
        var front := exQueue[0];
        var can := CanIssueCompute(front);
        if can {
          var ok := ReserveAt(front);
          if !ok { return AllocationRefused; }
          exQueue := exQueue[1..];
          Start(front);
        }
      }
      return Running;
    }

    method IsReady(l: Loc) returns (hit: bool)
      requires Wired()
      ensures hit == Ready(State().banks, l)
    {
      hit := BufferOf(l).CheckHit(l.address, l.half);
    }

    method SendWrites(n: nat)
      modifies this`waitingWriteReqs
      ensures waitingWriteReqs == old(waitingWriteReqs) + n
    {
      for i := 0 to n
        invariant waitingWriteReqs == old(waitingWriteReqs) + i
      {
        waitingWriteReqs := waitingWriteReqs + 1;
      }
    }

    method HandleStInstQueue()
      requires Wired()
      modifies this
      ensures Wired() && State() == HandleSt(old(State()))
    {
      hide Ready, Dest;
      if stQueue != [] {
        var front := stQueue[0];
        var hit := IsReady(Dest(front));
        if hit {
          SendWrites(|front.srcs|);
          if front.last {
            marked := marked + {front.tile};
          }
          stQueue := stQueue[1..];
        }
      }
    }

    method Cycle() returns (status: Status)
      requires Wired()
      modifies this, spad, accSpad
      ensures Wired() && status == StatusOf(Tick(k, old(State())))
      ensures status.Running? ==> State() == Tick(k, old(State())).core
    {
      hide FinishCompute, FinishVector, HandleLd, IssueEx, HandleSt;
      status := FinishComputePipeline();
      if !status.Running? { return; }
      status := FinishVectorPipeline();
      if !status.Running? { return; }
      status := HandleLdInstQueue();
      if !status.Running? { return; }
      status := IssueExInst();
      if !status.Running? { return; }
      HandleStInstQueue();
      coreCycle := coreCycle + 1;
    }

    method MayAllocate(l: Loc, size: nat) returns (can: bool)
      requires Wired()
      ensures can == CanAllocate(k, State().banks, l, size)
    {
      var there := BufferOf(l).CheckAllocated(l.address, l.half);
      var fits := BufferOf(l).CheckRemain(size, l.half);
      can := !there && fits;
    }

    /** A tile's front instruction enters its queue; `taken` says whether it left the tile. */
    method DispatchInst(i: Inst) returns (status: Status, taken: bool)
      requires Wired()
      modifies this
      ensures Wired() && status == StatusOf(Dispatch(k, old(State()), i))
      ensures status.Running? ==> State() == Dispatch(k, old(State()), i).core
      ensures taken == Enters(k, old(State()), i) && (!taken ==> State() == old(State()))
    {
      hide CanIssue, Ready, CanAllocate, Dest;
      taken := false;
      match i.opcode {
        case MovIn =>
          var fits := MayAllocate(Dest(i), i.size);
          if !fits { return AllocationRefused, false; }
          ldQueue, taken := ldQueue + [i], true;
        case MovOut =>
          var hit := IsReady(Dest(i));
          if hit {
            stQueue, taken := stQueue + [i], true;
          }
        case _ =>
          if exQueue == [] {
            var can := CanIssueCompute(i);
            if can {
              exQueue, taken := exQueue + [i], true;
            }
          }
      }
      return Running, taken;
    }

    method PushMemoryResponse(l: Loc) returns (status: Status)
      requires Wired()
      modifies this, spad, accSpad
      ensures Wired() && status == StatusOf(Respond(old(State()), l))
      ensures status.Running? ==> State() == Respond(old(State()), l).core
    {
      hide CanFill, FilledAt;
      var ok := FillAt(l);
      if !ok { return FillAssertFails; }
      loads := loads - multiset{l};
      return Running;
    }

    /** The answer to a write; the source lets the count wrap if there was none. */
    method PushWriteResponse()
      requires Wired() && waitingWriteReqs > 0
      modifies this
      ensures Wired() && State() == Written(old(State()))
    {
      waitingWriteReqs := waitingWriteReqs - 1;
    }
  }
}
