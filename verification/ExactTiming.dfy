/** When exactly instructions start and finish. ONNXim/src/SystolicWS.cc:43-76, 125-127. */
module ExactTiming {
  import opened Numbers
  import opened Options
  import opened Systolic

  // Matrix instructions -------------------------------------------------------------------------------

  /** The cycles in which a run issues matrix instructions. */
  ghost function IssueCycles(k: Setup, s: Core, es: seq<Event>): seq<nat>
    requires k.Valid()
    decreases |es|
  {
    if es == [] || !StepOne(k, s, es[0]).Next? then []
    else
      var t := StepOne(k, s, es[0]).core;
      (if |t.issued| > |s.issued| then [s.cycle] else []) + IssueCycles(k, t, es[1..])
  }

  /** f was issued in cycle c behind `last`, if there was one before. With the array idle, as the one before had
      finished, it starts at once, or when its weights are there; otherwise after the one before has streamed in, and
      a preload not before its weights could follow those of the one before. */
  ghost predicate StartsWhen(k: Setup, last: Option<Flying>, f: Flying, c: nat) {
    var preload := f.inst.opcode.GemmPreload?;
    if last.None? || last.value.finish <= c then f.start == c + if preload then k.height + k.height - 1 else 0
    else
      var streamed := Max(last.value.inst.computeSize, 4);
      f.start == Max(c, last.value.start + if preload then Max(streamed, k.height) else streamed)
  }

  function Before(log: seq<Flying>, i: nat): Option<Flying>
    requires i < |log|
  {
    if i == 0 then None else Some(log[i - 1])
  }

  /** Every instruction of the log, issued in its cycle, starts and finishes on time. */
  ghost predicate OnTime(k: Setup, log: seq<Flying>, cs: seq<nat>) {
    && |cs| == |log|
    && (forall i :: 0 <= i < |log| ==> StartsWhen(k, Before(log, i), log[i], cs[i]))
    && (forall i :: 0 <= i < |log| ==>
          log[i].finish == log[i].start + k.height + k.width - 2 + Max(log[i].inst.computeSize, 4))
    && (forall i, j :: 0 <= i < j < |cs| ==> cs[i] < cs[j])
  }

  /** What one cycle issues, if anything. */
  lemma TickIssues(k: Setup, s: Core)
    requires k.Valid() && Clocked(k, s, s.cycle) && Tick(k, s).Next?
    ensures var t := Tick(k, s).core;
            && t.cycle == s.cycle + 1
            && (t.issued == s.issued || exists f ::
                  && t.issued == s.issued + [f]
                  && StartsWhen(k, if s.issued == [] then None else Some(s.issued[|s.issued| - 1]), f, s.cycle)
                  && f.finish == f.start + k.height + k.width - 2 + Max(f.inst.computeSize, 4))
  {
    hide Clocked, BubbleOf, StartOf, Latency, CanFill, FilledAt, CanAllocate, Allocate, CanReserve, Reserve, Ready,
         StartsWhen;
    UpToIssueClocked(k, s);
    var u := UpToIssue(k, s).core;
    assert u.issued == s.issued;
    if u.ex != [] && CanIssue(k, u, u.ex[0]) && IsMatrix(u.ex[0]) {
      var r := Reserved(k, u);
      ClockedSame(k, u, r, u.cycle + 1);
      LaunchStarts(k, r, u.ex[0]);
    }
  }

  lemma LaunchStarts(k: Setup, s: Core, i: Inst)
    requires k.Valid() && Clocked(k, s, s.cycle + 1) && IsMatrix(i)
    ensures var f := OnArray(k, s, i);
            && StartsWhen(k, if s.issued == [] then None else Some(s.issued[|s.issued| - 1]), f, s.cycle)
            && f.finish == f.start + k.height + k.width - 2 + Max(f.inst.computeSize, 4)
  {
    hide VectorTiming, Timed;
    if s.issued != [] {
      if s.pipe == [] {
        assert s.issued[|s.issued| - 1] == s.retired[|s.retired| - 1].op;
      } else {
        assert s.issued[|s.issued| - 1] == s.pipe[|s.pipe| - 1];
      }
    }
  }

  lemma StartsAppend(k: Setup, log: seq<Flying>, cs: seq<nat>, f: Flying, c: nat)
    requires |cs| == |log| && forall i :: 0 <= i < |log| ==> StartsWhen(k, Before(log, i), log[i], cs[i])
    requires StartsWhen(k, if log == [] then None else Some(log[|log| - 1]), f, c)
    ensures forall i :: 0 <= i < |log| + 1 ==> StartsWhen(k, Before(log + [f], i), (log + [f])[i], (cs + [c])[i])
  {
    hide StartsWhen;
    forall i | 0 <= i < |log| + 1
      ensures StartsWhen(k, Before(log + [f], i), (log + [f])[i], (cs + [c])[i])
    {
      if i < |log| {
        assert StartsWhen(k, Before(log, i), log[i], cs[i]);
        assert Before(log + [f], i) == Before(log, i);
      }
    }
  }

  lemma OnTimeAppend(k: Setup, log: seq<Flying>, cs: seq<nat>, f: Flying, c: nat)
    requires OnTime(k, log, cs) && forall i :: 0 <= i < |cs| ==> cs[i] < c
    requires StartsWhen(k, if log == [] then None else Some(log[|log| - 1]), f, c)
    requires f.finish == f.start + k.height + k.width - 2 + Max(f.inst.computeSize, 4)
    ensures OnTime(k, log + [f], cs + [c])
  {
    hide StartsWhen, Before, Max;
    StartsAppend(k, log, cs, f, c);
  }

  lemma StepIssues(k: Setup, s: Core, e: Event, cs: seq<nat>)
    requires k.Valid() && Clocked(k, s, s.cycle) && OnTime(k, s.issued, cs) && StepOne(k, s, e).Next?
    requires forall i :: 0 <= i < |cs| ==> cs[i] < s.cycle
    ensures var t := StepOne(k, s, e).core;
            var ds := cs + if |t.issued| > |s.issued| then [s.cycle] else [];
            OnTime(k, t.issued, ds) && s.cycle <= t.cycle && forall i :: 0 <= i < |ds| ==> ds[i] < t.cycle
  {
    hide Clocked, OnTime, StartsWhen, Tick, CanAllocate, Ready, CanIssue, CanFill, FilledAt;
    if e.TickOne? {
      TickIssues(k, s);
      var t := Tick(k, s).core;
      if t.issued != s.issued {
        var f :| t.issued == s.issued + [f]
              && StartsWhen(k, if s.issued == [] then None else Some(s.issued[|s.issued| - 1]), f, s.cycle)
              && f.finish == f.start + k.height + k.width - 2 + Max(f.inst.computeSize, 4);
        OnTimeAppend(k, s.issued, cs, f, s.cycle);
      }
    }
    assert cs + [] == cs;
  }

  lemma {:induction false} RunIsOnTime(k: Setup, s: Core, cs: seq<nat>, es: seq<Event>, t: Core)
    requires k.Valid() && Clocked(k, s, s.cycle) && OnTime(k, s.issued, cs) && Reaches(k, s, es, t)
    requires forall i :: 0 <= i < |cs| ==> cs[i] < s.cycle
    ensures OnTime(k, t.issued, cs + IssueCycles(k, s, es))
    decreases |es|
  {
    hide Clocked, OnTime, StepOne;
    if es == [] {
      assert cs + [] == cs;
    } else {
      var u := StepOne(k, s, es[0]).core;
      var d := if |u.issued| > |s.issued| then [s.cycle] else [];
      StepIssues(k, s, es[0], cs);
      StepClocked(k, s, es[0]);
      RunIsOnTime(k, u, cs + d, es[1..], t);
      assert cs + d + IssueCycles(k, u, es[1..]) == cs + (d + IssueCycles(k, u, es[1..]));
    }
  }

  /** Over every run, whatever is dispatched, answered and flushed: with the cycles in which the matrix instructions
      were issued, at most one a cycle, every start and every finish is determined. */
  lemma EveryRunIsOnTime(k: Setup, es: seq<Event>, t: Core)
    requires k.Valid() && Reaches(k, RESET, es, t)
    ensures OnTime(k, t.issued, IssueCycles(k, RESET, es))
  {
    ResetClocked(k);
    RunIsOnTime(k, RESET, [], es, t);
    assert [] + IssueCycles(k, RESET, es) == IssueCycles(k, RESET, es);
  }

  // Vector operations ---------------------------------------------------------------------------------

  /** The operations of the vector unit, finished or not, in the order they started. */
  ghost function VectorLog(s: Core): seq<Flying> {
    Ops(s.vectorDone) + s.vector
  }

  /** The cycles in which a run starts one. */
  ghost function VectorCycles(k: Setup, s: Core, es: seq<Event>): seq<nat>
    requires k.Valid()
    decreases |es|
  {
    if es == [] || !StepOne(k, s, es[0]).Next? then []
    else
      var t := StepOne(k, s, es[0]).core;
      (if |VectorLog(t)| > |VectorLog(s)| then [s.cycle] else []) + VectorCycles(k, t, es[1..])
  }

  /** A vector operation starts in the cycle it is issued and takes its own time. */
  ghost predicate TakesItsTime(f: Flying, c: nat) {
    f.start == c && f.finish == c + if f.inst.opcode.VectorOp? then f.inst.opcode.cycles else 0
  }

  ghost predicate VectorOnTime(log: seq<Flying>, cs: seq<nat>) {
    |cs| == |log| && forall i :: 0 <= i < |log| ==> TakesItsTime(log[i], cs[i])
  }

  lemma OpsAppend(ds: seq<Done>, d: Done)
    ensures Ops(ds + [d]) == Ops(ds) + [d.op]
  {
  }

  /** Finishing an operation does not change the order. */
  lemma FinishKeepsLog(s: Core)
    requires FinishVector(s).Next?
    ensures VectorLog(FinishVector(s).core) == VectorLog(s)
  {
    hide CanFill, FilledAt;
    if s.vector != [] && s.vector[0].finish <= s.cycle {
      OpsAppend(s.vectorDone, Done(s.vector[0], s.cycle));
      assert s.vector == [s.vector[0]] + s.vector[1..];
    }
  }

  lemma TickStarts(k: Setup, s: Core)
    requires k.Valid() && Tick(k, s).Next?
    ensures var t := Tick(k, s).core;
            VectorLog(t) == VectorLog(s) || exists f :: VectorLog(t) == VectorLog(s) + [f] && TakesItsTime(f, s.cycle)
  {
    hide BubbleOf, StartOf, Latency, CanFill, FilledAt, CanAllocate, Allocate, CanReserve, Reserve, Ready, Ops;
    FinishKeepsLog(FinishCompute(s).core);
    var u := UpToIssue(k, s).core;
    assert VectorLog(u) == VectorLog(s) && u.cycle == s.cycle;
    if u.ex != [] && CanIssue(k, u, u.ex[0]) && !IsMatrix(u.ex[0]) {
      var f := OnVector(u, u.ex[0]);
      assert TakesItsTime(f, s.cycle);
      assert Ops(u.vectorDone) + (u.vector + [f]) == Ops(u.vectorDone) + u.vector + [f];
    }
  }

  lemma StepStarts(k: Setup, s: Core, e: Event, cs: seq<nat>)
    requires k.Valid() && VectorOnTime(VectorLog(s), cs) && StepOne(k, s, e).Next?
    ensures var t := StepOne(k, s, e).core;
            VectorOnTime(VectorLog(t), cs + if |VectorLog(t)| > |VectorLog(s)| then [s.cycle] else [])
  {
    hide Tick, CanAllocate, Ready, CanIssue, CanFill, FilledAt, TakesItsTime, Ops;
    if e.TickOne? {
      TickStarts(k, s);
    }
    assert cs + [] == cs;
  }

  lemma {:induction false} RunStarts(k: Setup, s: Core, cs: seq<nat>, es: seq<Event>, t: Core)
    requires k.Valid() && VectorOnTime(VectorLog(s), cs) && Reaches(k, s, es, t)
    ensures VectorOnTime(VectorLog(t), cs + VectorCycles(k, s, es))
    decreases |es|
  {
    hide VectorOnTime, StepOne, VectorLog;
    if es == [] {
      assert cs + [] == cs;
    } else {
      var u := StepOne(k, s, es[0]).core;
      var d := if |VectorLog(u)| > |VectorLog(s)| then [s.cycle] else [];
      StepStarts(k, s, es[0], cs);
      RunStarts(k, u, cs + d, es[1..], t);
      assert cs + d + VectorCycles(k, u, es[1..]) == cs + (d + VectorCycles(k, u, es[1..]));
    }
  }

  /** The same over every run for the vector unit. */
  lemma EveryVectorIsOnTime(k: Setup, es: seq<Event>, t: Core)
    requires k.Valid() && Reaches(k, RESET, es, t)
    ensures VectorOnTime(VectorLog(t), VectorCycles(k, RESET, es))
  {
    assert VectorLog(RESET) == [];
    RunStarts(k, RESET, [], es, t);
    assert [] + VectorCycles(k, RESET, es) == VectorCycles(k, RESET, es);
  }
}
