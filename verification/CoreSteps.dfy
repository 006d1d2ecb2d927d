/** Single cycles of a core worked out, from which concrete runs are made, and the run that shows the bubble
    statistic at fault. ONNXim/src/SystolicWS.cc:6-108. */
module CoreSteps {
  import opened Numbers
  import opened Scratchpad
  import opened Systolic

  /** The head of neither pipeline finishes in this cycle. */
  predicate PipeWaits(c: Core) { c.pipe == [] || c.pipe[0].finish > c.cycle }
  predicate VectorWaits(c: Core) { c.vector == [] || c.vector[0].finish > c.cycle }

  function Later(c: Core): Core { c.(cycle := c.cycle + 1) }

  lemma IdleTick(k: Setup, c: Core)
    requires k.Valid() && PipeWaits(c) && VectorWaits(c) && c.ld == [] && c.ex == [] && c.st == []
    ensures Tick(k, c) == Next(Later(c))
  {
  }

  lemma LoadTick(k: Setup, c: Core, i: Inst)
    requires k.Valid() && PipeWaits(c) && VectorWaits(c) && c.ld == [i] && c.ex == [] && c.st == []
    requires CanAllocate(k, c.banks, Dest(i), i.size)
    ensures Tick(k, c) == Next(Later(c.(banks := Allocate(k, c.banks, Dest(i), i.size, i.size), ld := [],
                                        loads := c.loads[Dest(i) := c.loads[Dest(i)] + |i.srcs|],
                                        loaders := c.loaders[Dest(i) := i.tile])))
  {
    hide CanAllocate, Allocate, Dest;
  }

  lemma LaunchTick(k: Setup, c: Core, i: Inst)
    requires k.Valid() && PipeWaits(c) && VectorWaits(c) && c.ld == [] && c.ex == [i] && c.st == []
    requires CanIssue(k, c, i) && CanReserve(k, c.banks, i)
    ensures Tick(k, c) == Next(Later(Launch(k, Reserved(k, c), i)))
  {
    hide CanIssue, CanReserve, Reserve, Launch;
    LaunchQueues(k, Reserved(k, c), i);
  }

  lemma FinishTick(k: Setup, c: Core)
    requires k.Valid() && !PipeWaits(c) && VectorWaits(c) && c.ld == [] && c.ex == [] && c.st == []
    ensures Tick(k, c) == if CanFill(c.banks, Dest(c.pipe[0].inst)) then Next(Later(FinishCompute(c).core))
                          else BadFill
  {
    hide CanFill, FilledAt, Dest;
  }

  lemma VectorTick(k: Setup, c: Core)
    requires k.Valid() && PipeWaits(c) && !VectorWaits(c) && c.ld == [] && c.ex == [] && c.st == []
    ensures Tick(k, c) == if CanFill(c.banks, Dest(c.vector[0].inst)) then Next(Later(FinishVector(c).core))
                          else BadFill
  {
    hide CanFill, FilledAt, Dest;
  }

  // The bubble statistic ------------------------------------------------------------------------------

  /** The array is deep and large enough for an instruction to outlast its stream by a cycle. */
  predicate Lingers(k: Setup) {
    k.height >= 2 && k.height + k.width >= 4
  }

  /** Elsewhere the pipeline is empty or full by the time there is a gap to count. */
  lemma NoBubble(k: Setup, s: Core, i: Inst)
    requires k.Valid() && Clocked(k, s, s.cycle + 1) && |s.pipe| < k.height && !Lingers(k)
    ensures BubbleOf(k, s, i) == 0
  {
    if s.pipe != [] {
      var n := |s.pipe| - 1;
      assert s.issued[|s.retired| + n] == s.pipe[n];
      hide Follows;
    }
  }

  lemma TickBubble(k: Setup, s: Core)
    requires k.Valid() && Clocked(k, s, s.cycle) && !Lingers(k) && Tick(k, s).Next?
    ensures Tick(k, s).core.bubble == s.bubble
  {
    hide Clocked, BubbleOf, StartOf, Latency, CanFill, FilledAt, CanAllocate, Allocate, CanReserve, Reserve, Ready;
    UpToIssueClocked(k, s);
    var u := UpToIssue(k, s).core;
    if u.ex != [] && CanIssue(k, u, u.ex[0]) && IsMatrix(u.ex[0]) {
      var r := Reserved(k, u);
      ClockedSame(k, u, r, u.cycle + 1);
      NoBubble(k, r, u.ex[0]);
    }
  }

  lemma StepBubble(k: Setup, s: Core, e: Systolic.Event)
    requires k.Valid() && Clocked(k, s, s.cycle) && !Lingers(k) && StepOne(k, s, e).Next?
    ensures StepOne(k, s, e).core.bubble == s.bubble
  {
    hide Clocked, Tick, CanAllocate, Ready, CanIssue, CanFill, FilledAt;
    if e.TickOne? {
      TickBubble(k, s);
    }
  }

  lemma {:induction false} RunBubble(k: Setup, s: Core, es: seq<Systolic.Event>, t: Core)
    requires k.Valid() && Clocked(k, s, s.cycle) && !Lingers(k) && Reaches(k, s, es, t)
    ensures t.bubble == s.bubble
    decreases |es|
  {
    if es != [] {
      hide Clocked, StepOne;
      StepClocked(k, s, es[0]);
      StepBubble(k, s, es[0]);
      RunBubble(k, StepOne(k, s, es[0]).core, es[1..], t);
    }
  }

  lemma {:induction false} IdleTicks(k: Setup, c: Core, n: nat) returns (es: seq<Systolic.Event>)
    requires k.Valid() && c.ld == c.ex == c.st == [] && c.vector == []
    requires c.pipe != [] && c.pipe[0].finish >= c.cycle + n
    ensures Reaches(k, c, es, c.(cycle := c.cycle + n))
    decreases n
  {
    es := [];
    ReachesNothing(k, true, c);
    if n > 0 {
      IdleTick(k, c);
      hide Tick, Reaches;
      ReachesOne(k, true, c, TickOne);
      var fs := IdleTicks(k, Later(c), n - 1);
      ReachesThrough(k, true, c, [TickOne], Later(c), fs, c.(cycle := c.cycle + n));
      es := [TickOne] + fs;
    }
  }

  /** A matrix instruction that streams four rows and reads nothing. */
  const STREAM := Inst(Gemm, ACCUM_SPAD_BASE, [], false, 0, 0, 0, 4, false, false, 0)

  lemma StreamReserves(k: Setup, b: Banks)
    requires b == RESET.banks
    ensures CanReserve(k, b, STREAM) && CanReserve(k, Reserve(k, b, STREAM), STREAM)
  {
  }

  /** The first one, issued in cycle 0, and the core after it was dispatched. */
  function FirstStream(k: Setup): Core
    requires k.Valid()
  {
    StreamReserves(k, RESET.banks);
    Later(Launch(k, Reserved(k, RESET.(ex := [STREAM])), STREAM))
  }

  lemma Dispatched(k: Setup, c: Core)
    requires k.Valid() && c.ex == [] && |c.pipe| < k.height
    ensures StepOne(k, c, DispatchOne(STREAM)) == Next(c.(ex := [STREAM])) && CanIssue(k, c.(ex := [STREAM]), STREAM)
  {
  }

  lemma FirstStreamIs(k: Setup)
    requires k.Valid()
    ensures var c := FirstStream(k);
            && c.cycle == 1 && c.pipe == [Flying(STREAM, 0, k.height + k.width + 2)] && c.bubble == 0
            && c.banks == Reserve(k, RESET.banks, STREAM)
            && c.vector == [] && c.ld == c.ex == c.st == []
  {
    hide Reserve, CanReserve;
  }

  lemma ReachesFirst(k: Setup)
    requires k.Valid()
    ensures Reaches(k, RESET, [DispatchOne(STREAM), TickOne], FirstStream(k))
  {
    var c := RESET.(ex := [STREAM]);
    Dispatched(k, RESET);
    StreamReserves(k, RESET.banks);
    LaunchTick(k, c, STREAM);
    hide Tick, Reaches, Dispatch, CanReserve, Launch;
    ReachesOne(k, true, RESET, DispatchOne(STREAM));
    ReachesOne(k, true, c, TickOne);
    ReachesThrough(k, true, RESET, [DispatchOne(STREAM)], c, [TickOne], FirstStream(k));
    assert [DispatchOne(STREAM)] + [TickOne] == [DispatchOne(STREAM), TickOne];
  }

  /** The second one, dispatched in cycle 5: its predecessor is still in flight, but its stream is over. */
  function SecondStream(k: Setup): Core
    requires k.Valid()
  {
    var c := FirstStream(k).(cycle := 5, ex := [STREAM]);
    StreamReserves(k, RESET.banks);
    FirstStreamIs(k);
    Later(Launch(k, Reserved(k, c), STREAM))
  }

  lemma ReachesSecond(k: Setup)
    requires k.Valid() && Lingers(k)
    ensures Reaches(k, FirstStream(k).(cycle := 5), [DispatchOne(STREAM), TickOne], SecondStream(k))
  {
    var c := FirstStream(k).(cycle := 5);
    var d := c.(ex := [STREAM]);
    FirstStreamIs(k);
    Dispatched(k, c);
    StreamReserves(k, RESET.banks);
    LaunchTick(k, d, STREAM);
    hide Tick, Reaches, Dispatch, CanReserve, Launch, FirstStream;
    ReachesOne(k, true, c, DispatchOne(STREAM));
    ReachesOne(k, true, d, TickOne);
    ReachesThrough(k, true, c, [DispatchOne(STREAM)], d, [TickOne], SecondStream(k));
    assert [DispatchOne(STREAM)] + [TickOne] == [DispatchOne(STREAM), TickOne];
  }

  lemma SecondStreamIs(k: Setup)
    requires k.Valid() && Lingers(k)
    ensures var c := SecondStream(k);
            && c.bubble == 9 && |c.issued| == 2 && c.issued[0] == Flying(STREAM, 0, k.height + k.width + 2)
            && c.issued[1].start == 5
  {
    hide Reserve, CanReserve;
    FirstStreamIs(k);
  }

  /** The array stands idle for one cycle, and the statistic says nine. */
  lemma BubbleRun(k: Setup) returns (es: seq<Systolic.Event>, t: Core)
    requires k.Valid() && Lingers(k)
    ensures Reaches(k, RESET, es, t)
    ensures |t.issued| == 2 && t.issued[1].start == t.issued[0].start + Streamed(t.issued[0].inst) + 1 && t.bubble == 9
  {
    hide Reaches, FirstStream, SecondStream;
    var c := FirstStream(k);
    t := SecondStream(k);
    FirstStreamIs(k);
    SecondStreamIs(k);
    ReachesFirst(k);
    var fs := IdleTicks(k, c, 4);
    ReachesSecond(k);
    es := [DispatchOne(STREAM), TickOne];
    ReachesThrough(k, true, RESET, es, c, fs, c.(cycle := 5));
    ReachesThrough(k, true, RESET, es + fs, c.(cycle := 5), [DispatchOne(STREAM), TickOne], t);
    es := es + fs + [DispatchOne(STREAM), TickOne];
  }

  /** Some run makes the statistic count a bubble, and so overcount, exactly if the array has at least two rows and
      at least four rows and columns together. */
  lemma BubbleIff(k: Setup)
    requires k.Valid()
    ensures (exists es, t :: Reaches(k, RESET, es, t) && t.bubble > 0) <==> Lingers(k)
  {
    hide Reaches;
    if Lingers(k) {
      var es, t := BubbleRun(k);
    } else {
      ResetClocked(k);
      forall es, t | Reaches(k, RESET, es, t)
        ensures t.bubble == 0
      {
        RunBubble(k, RESET, es, t);
      }
    }
  }
}
