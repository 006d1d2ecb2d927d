/** The round-robin crossbar: `SimpleInterconnect` in ONNXim/src/Interconnect.cc:8-76. */
module Crossbar {
  import opened Numbers

  type Access = nat  // the identity of a memory access

  datatype Entity = Entity(finishCycle: nat, dest: nat, access: Access)
  datatype Delivery = Delivery(src: nat, entity: Entity)

  /** The fields of the crossbar that live from one cycle to the next. */
  datatype Net = Net(ins: seq<seq<Entity>>, outs: seq<seq<Access>>, rrStart: nat, cycles: nat) {
    ghost predicate Valid() {
      && |ins| == |outs| > rrStart
      && forall i, j :: 0 <= i < |ins| && 0 <= j < |ins[i]| ==> ins[i][j].dest < |ins|
    }

    predicate Ready(src: nat)
      requires src < |ins|
    {
      ins[src] != [] && ins[src][0].finishCycle <= cycles
    }
  }

  /** x % n for the sums of two node numbers. */
  function Wrap(x: nat, n: nat): (y: nat)
    requires x < 2 * n
    ensures y < n
  {
    if x < n then x else x - n
  }

  lemma WrapIsRemainder(x: nat, n: nat)
    requires x < 2 * n
    ensures Wrap(x, n) == x % n
  {
    RemainderUnique(x, n, if x < n then 0 else 1, Wrap(x, n));
  }

  // One cycle -----------------------------------------------------------------------------------------

  /** The head of src moves to its destination. */
  function Move(s: Net, src: nat): (t: Net)
    requires s.Valid() && src < |s.ins| && s.ins[src] != []
    ensures t.Valid() && |t.ins| == |s.ins|
  {
    var e := s.ins[src][0];
    s.(ins := s.ins[src := s.ins[src][1..]], outs := s.outs[e.dest := s.outs[e.dest] + [e.access]])
  }

  /** Node `node` of the round onwards: the net afterwards, and what was delivered, in order. */
  function Serve(s: Net, busy: seq<bool>, node: nat): (r: (Net, seq<Delivery>))
    requires s.Valid() && |busy| == |s.ins| && node <= |s.ins|
    ensures r.0.Valid() && |r.0.ins| == |s.ins| && r.0.rrStart == s.rrStart && r.0.cycles == s.cycles
    decreases |s.ins| - node
  {
    if node == |s.ins| then (s, [])
    else
      var src := Wrap(s.rrStart + node, |s.ins|);
      if s.Ready(src) && !busy[s.ins[src][0].dest] then
        var r := Serve(Move(s, src), busy[s.ins[src][0].dest := true], node + 1);
        (r.0, [Delivery(src, s.ins[src][0])] + r.1)
      else Serve(s, busy, node + 1)
  }

  function Idle(n: nat): (busy: seq<bool>)
    ensures |busy| == n && forall i :: 0 <= i < n ==> !busy[i]
  {
    seq(n, i => false)
  }

  function Delivered(s: Net): seq<Delivery>
    requires s.Valid()
  {
    Serve(s, Idle(|s.ins|), 0).1
  }

  function Cycled(s: Net): (t: Net)
    requires s.Valid()
    ensures t.Valid() && |t.ins| == |s.ins|
  {
    var t := Serve(s, Idle(|s.ins|), 0).0;
    t.(rrStart := Wrap(s.rrStart + 1, |s.ins|), cycles := s.cycles + 1)
  }

  function Pushed(s: Net, latency: nat, src: nat, dest: nat, access: Access): (t: Net)
    requires s.Valid() && src < |s.ins| && dest < |s.ins|
    ensures t.Valid() && |t.ins| == |s.ins|
  {
    s.(ins := s.ins[src := s.ins[src] + [NewEntity(s, latency, src, dest, access)]])
  }

  function NewEntity(s: Net, latency: nat, src: nat, dest: nat, access: Access): Entity
    requires src < |s.ins|
  {
    var q := s.ins[src];
    Entity(if q == [] then s.cycles + latency else q[|q| - 1].finishCycle + 1, dest, access)
  }

  lemma ServeNext(s: Net, busy: seq<bool>, node: nat)
    requires s.Valid() && |busy| == |s.ins| && node < |s.ins|
    ensures var src := Wrap(s.rrStart + node, |s.ins|);
            if s.Ready(src) && !busy[s.ins[src][0].dest] then
              var r := Serve(Move(s, src), busy[s.ins[src][0].dest := true], node + 1);
              && Serve(s, busy, node).0 == r.0
              && Serve(s, busy, node).1 == [Delivery(src, s.ins[src][0])] + r.1
            else Serve(s, busy, node) == Serve(s, busy, node + 1)
  {
  }

  lemma ServeEnd(s: Net, busy: seq<bool>)
    requires s.Valid() && |busy| == |s.ins|
    ensures Serve(s, busy, |s.ins|) == (s, [])
  {
  }

  lemma MoveMeans(s: Net, src: nat)
    requires s.Valid() && src < |s.ins| && s.ins[src] != []
    ensures var e := s.ins[src][0];
            Move(s, src)
              == Net(s.ins[src := s.ins[src][1..]], s.outs[e.dest := s.outs[e.dest] + [e.access]], s.rrStart, s.cycles)
  {
  }

  lemma IdleMeans(busy: seq<bool>)
    requires forall i :: 0 <= i < |busy| ==> !busy[i]
    ensures busy == Idle(|busy|)
  {
  }

  class SimpleInterconnect {
    const latency: nat
    var inBuffers: seq<seq<Entity>>
    var outBuffers: seq<seq<Access>>
    var busyNode: seq<bool>
    var rrStart: nat  // the source never initialises it: any starting value below the node count
    var cycles: nat

    ghost function State(): Net
      reads this
    {
      Net(inBuffers, outBuffers, rrStart, cycles)
    }

    ghost predicate Valid()
      reads this
    {
      State().Valid() && busyNode == Idle(|inBuffers|)
    }

    constructor (nodes: nat, latency: nat, rrStart: nat)
      requires rrStart < nodes
      ensures Valid() && this.latency == latency
      ensures State() == Net(seq(nodes, i => []), seq(nodes, i => []), rrStart, 0)
    {
      this.latency, this.rrStart, cycles := latency, rrStart, 0;
      inBuffers, outBuffers := seq(nodes, i => []), seq(nodes, i => []);
      busyNode := Idle(nodes);
    }

    method Cycle()
      requires Valid()
      modifies this
      ensures Valid() && State() == Cycled(old(State()))
    {
      hide Serve, Move, Idle;
      var n := |inBuffers|;
      for node := 0 to n
        invariant State().Valid() && |inBuffers| == |busyNode| == n
        invariant rrStart == old(rrStart) && cycles == old(cycles)
        invariant Serve(old(State()), Idle(n), 0).0 == Serve(State(), busyNode, node).0
      {
        ghost var before, busy := State(), busyNode;
        var srcNode := (rrStart + node) % n;
        WrapIsRemainder(rrStart + node, n);
        ServeNext(before, busy, node);
        if inBuffers[srcNode] != [] && inBuffers[srcNode][0].finishCycle <= cycles {
          var dest := inBuffers[srcNode][0].dest;
          if !busyNode[dest] {
            outBuffers := outBuffers[dest := outBuffers[dest] + [inBuffers[srcNode][0].access]];
            inBuffers := inBuffers[srcNode := inBuffers[srcNode][1..]];
            busyNode := busyNode[dest := true];
            MoveMeans(before, srcNode);
          }
        }
      }
      label Served:
      for node := 0 to n
        invariant |busyNode| == n && forall i :: 0 <= i < node ==> !busyNode[i]
        invariant inBuffers == old@Served(inBuffers) && outBuffers == old@Served(outBuffers)
        invariant rrStart == old(rrStart) && cycles == old(cycles)
      {
        busyNode := busyNode[node := false];
      }
      IdleMeans(busyNode);
      ServeEnd(old@Served(State()), old@Served(busyNode));
      WrapIsRemainder(rrStart + 1, n);
      rrStart := (rrStart + 1) % n;
      cycles := cycles + 1;
    }

    method Push(src: nat, dest: nat, request: Access)
      requires Valid() && src < |inBuffers| && dest < |inBuffers|
      modifies this
      ensures Valid() && State() == Pushed(old(State()), latency, src, dest, request)
    {
      var finish := if inBuffers[src] == [] then cycles + latency
                    else inBuffers[src][|inBuffers[src]| - 1].finishCycle + 1;
      inBuffers := inBuffers[src := inBuffers[src] + [Entity(finish, dest, request)]];
    }

    method IsEmpty(nid: nat) returns (empty: bool)
      requires Valid() && nid < |outBuffers|
      ensures empty <==> State().outs[nid] == []
    {
      empty := outBuffers[nid] == [];
    }

    method Top(nid: nat) returns (access: Access)
      requires Valid() && nid < |outBuffers| && State().outs[nid] != []
      ensures access == State().outs[nid][0]
    {
      access := outBuffers[nid][0];
    }

    method Pop(nid: nat)
      requires Valid() && nid < |outBuffers| && State().outs[nid] != []
      modifies this
      ensures Valid()
      ensures State() == old(State()).(outs := old(State()).outs[nid := old(State()).outs[nid][1..]])
    {
      outBuffers := outBuffers[nid := outBuffers[nid][1..]];
    }
  }

  // Runs ----------------------------------------------------------------------------------------------

  datatype Event = Push(src: nat, dest: nat, access: Access) | Pop(node: nat) | Cycle

  /** A crossbar with its history: what each source pushed, every delivery, and what each node popped. */
  datatype Trace = Trace(net: Net, pushed: seq<seq<Entity>>, log: seq<Delivery>, popped: seq<seq<Access>>)

  predicate Possible(s: Net, e: Event) {
    match e
    case Push(src, dest, _) => src < |s.ins| && dest < |s.ins|
    case Pop(node) => node < |s.outs| && s.outs[node] != []
    case Cycle => true
  }

  ghost predicate WellFormed(t: Trace) {
    t.net.Valid() && |t.pushed| == |t.popped| == |t.net.ins|
  }

  ghost function Step(t: Trace, latency: nat, e: Event): Trace
    requires WellFormed(t) && Possible(t.net, e)
  {
    match e
    case Push(src, dest, access) =>
      t.(net := Pushed(t.net, latency, src, dest, access),
         pushed := t.pushed[src := t.pushed[src] + [NewEntity(t.net, latency, src, dest, access)]])
    case Pop(node) =>
      t.(net := t.net.(outs := t.net.outs[node := t.net.outs[node][1..]]),
         popped := t.popped[node := t.popped[node] + [t.net.outs[node][0]]])
    case Cycle => t.(net := Cycled(t.net), log := t.log + Delivered(t.net))
  }

  function FromSource(log: seq<Delivery>, src: nat): seq<Entity> {
    if log == [] then []
    else (if log[0].src == src then [log[0].entity] else []) + FromSource(log[1..], src)
  }

  function ToDest(log: seq<Delivery>, dest: nat): seq<Access> {
    if log == [] then []
    else (if log[0].entity.dest == dest then [log[0].entity.access] else []) + ToDest(log[1..], dest)
  }

  /** Nothing is lost, made up or overtaken: what a source pushed is what was delivered from it, in that
      order, followed by what it still holds; and what was delivered to a node is what it popped followed by
      what it still holds. */
  ghost predicate Conserved(t: Trace) {
    && WellFormed(t)
    && (forall i :: 0 <= i < |t.pushed| ==> t.pushed[i] == FromSource(t.log, i) + t.net.ins[i])
    && (forall i :: 0 <= i < |t.popped| ==> ToDest(t.log, i) == t.popped[i] + t.net.outs[i])
  }

  lemma Associate<T>(a: seq<T>, b: seq<T>, c: seq<T>)
    ensures a + (b + c) == (a + b) + c
  {
  }

  lemma Cons(d: Delivery, log: seq<Delivery>, i: nat)
    ensures FromSource([d] + log, i) == (if d.src == i then [d.entity] else []) + FromSource(log, i)
    ensures ToDest([d] + log, i) == (if d.entity.dest == i then [d.entity.access] else []) + ToDest(log, i)
  {
    assert ([d] + log)[1..] == log;
  }

  lemma {:induction false} Append(a: seq<Delivery>, b: seq<Delivery>, i: nat)
    ensures FromSource(a + b, i) == FromSource(a, i) + FromSource(b, i)
    ensures ToDest(a + b, i) == ToDest(a, i) + ToDest(b, i)
  {
    if a == [] {
      assert a + b == b;
    } else {
      hide FromSource, ToDest;
      var d, rest := a[0], a[1..];
      assert a == [d] + rest && a + b == [d] + (rest + b);
      Append(rest, b, i);
      Cons(d, rest, i);
      Cons(d, rest + b, i);
    }
  }

  /** One round moves packets from the fronts of the in-buffers to the backs of the out-buffers. */
  lemma {:induction false} ServeConserves(s: Net, busy: seq<bool>, node: nat, i: nat)
    requires s.Valid() && |busy| == |s.ins| && node <= |s.ins| && i < |s.ins|
    ensures var (t, log) := Serve(s, busy, node);
            && s.ins[i] == FromSource(log, i) + t.ins[i]
            && t.outs[i] == s.outs[i] + ToDest(log, i)
    decreases |s.ins| - node
  {
    if node < |s.ins| {
      hide Serve, Move, FromSource, ToDest, Net.Valid, Wrap;
      var src := Wrap(s.rrStart + node, |s.ins|);
      ServeNext(s, busy, node);
      if s.Ready(src) && !busy[s.ins[src][0].dest] {
        var d, busy' := Delivery(src, s.ins[src][0]), busy[s.ins[src][0].dest := true];
        var (t, log) := Serve(Move(s, src), busy', node + 1);
        ServeConserves(Move(s, src), busy', node + 1, i);
        MoveConserves(s, src, t, log, i);
      } else {
        ServeConserves(s, busy, node + 1, i);
      }
    } else {
      ServeEnd(s, busy);
    }
  }

  lemma MoveConserves(s: Net, src: nat, t: Net, log: seq<Delivery>, i: nat)
    requires s.Valid() && src < |s.ins| && s.ins[src] != [] && i < |s.ins| && |t.ins| == |t.outs| == |s.ins|
    requires Move(s, src).ins[i] == FromSource(log, i) + t.ins[i]
    requires t.outs[i] == Move(s, src).outs[i] + ToDest(log, i)
    ensures var d := Delivery(src, s.ins[src][0]);
            && s.ins[i] == FromSource([d] + log, i) + t.ins[i]
            && t.outs[i] == s.outs[i] + ToDest([d] + log, i)
  {
    MoveMeans(s, src);
    hide FromSource, ToDest, Move, Net.Valid;
    var d := Delivery(src, s.ins[src][0]);
    Cons(d, log, i);
    var p, q := if src == i then [d.entity] else [], if d.entity.dest == i then [d.entity.access] else [];
    assert s.ins[i] == p + Move(s, src).ins[i] && Move(s, src).outs[i] == s.outs[i] + q;
    Front(s.ins[i], p, Move(s, src).ins[i], FromSource(log, i), t.ins[i]);
    Back(s.outs[i], q, Move(s, src).outs[i], ToDest(log, i), t.outs[i]);
  }

  lemma Front<T>(a: seq<T>, p: seq<T>, a': seq<T>, f: seq<T>, rest: seq<T>)
    requires a == p + a' && a' == f + rest
    ensures a == (p + f) + rest
  {
  }

  lemma Back<T>(b: seq<T>, q: seq<T>, b': seq<T>, g: seq<T>, c: seq<T>)
    requires b' == b + q && c == b' + g
    ensures c == b + (q + g)
  {
  }

  lemma StepConserves(t: Trace, latency: nat, e: Event)
    requires Conserved(t) && Possible(t.net, e)
    ensures Conserved(Step(t, latency, e))
  {
    match e
    case Push(src, dest, access) =>
    case Pop(node) =>
      assert t.net.outs[node] == [t.net.outs[node][0]] + t.net.outs[node][1..];
    case Cycle =>
      forall i | 0 <= i < |t.pushed|
        ensures t.pushed[i] == FromSource(t.log + Delivered(t.net), i) + Cycled(t.net).ins[i]
        ensures ToDest(t.log + Delivered(t.net), i) == t.popped[i] + Cycled(t.net).outs[i]
      {
        hide FromSource, ToDest, Serve;
        ServeConserves(t.net, Idle(|t.net.ins|), 0, i);
        Append(t.log, Delivered(t.net), i);
        Associate(FromSource(t.log, i), FromSource(Delivered(t.net), i), Cycled(t.net).ins[i]);
        Associate(t.popped[i], t.net.outs[i], ToDest(Delivered(t.net), i));
      }
  }

  /** u is where the events lead from t, each of them possible when its turn comes. */
  ghost predicate Runs(t: Trace, latency: nat, es: seq<Event>, u: Trace)
    decreases |es|
  {
    if es == [] then u == t
    else WellFormed(t) && Possible(t.net, es[0]) && Runs(Step(t, latency, es[0]), latency, es[1..], u)
  }

  ghost function Start(nodes: nat, rrStart: nat): Trace {
    Trace(Net(seq(nodes, i => []), seq(nodes, i => []), rrStart, 0), seq(nodes, i => []), [], seq(nodes, i => []))
  }

  /** From any starting position of the round robin, every run conserves packets and their order. */
  lemma {:induction false} EveryRunConserves(nodes: nat, rrStart: nat, latency: nat, es: seq<Event>, u: Trace)
    requires rrStart < nodes && Runs(Start(nodes, rrStart), latency, es, u)
    ensures Conserved(u)
  {
    RunConserves(Start(nodes, rrStart), latency, es, u);
  }

  lemma {:induction false} RunConserves(t: Trace, latency: nat, es: seq<Event>, u: Trace)
    requires Conserved(t) && Runs(t, latency, es, u)
    ensures Conserved(u)
    decreases |es|
  {
    if es != [] {
      hide Conserved, Step;
      StepOnce(t, latency, es[0]);
      RunConserves(Step(t, latency, es[0]), latency, es[1..], u);
    }
  }

  lemma StepOnce(t: Trace, latency: nat, e: Event)
    requires Conserved(t) && WellFormed(t) && Possible(t.net, e)
    ensures Conserved(Step(t, latency, e))
  {
    hide Step;
    StepConserves(t, latency, e);
  }

  // At most one delivery per destination --------------------------------------------------------------

  ghost predicate DistinctDests(log: seq<Delivery>) {
    forall i, j :: 0 <= i < j < |log| ==> log[i].entity.dest != log[j].entity.dest
  }

  /** One cycle never delivers two packets to the same node. */
  lemma OnePerDestination(s: Net)
    requires s.Valid()
    ensures DistinctDests(Delivered(s))
  {
    ServeDistinct(s, Idle(|s.ins|), 0);
  }

  /** The log goes to distinct nodes, none of them busy before. */
  ghost predicate FreshDests(log: seq<Delivery>, busy: seq<bool>) {
    DistinctDests(log)
    && forall i :: 0 <= i < |log| ==> log[i].entity.dest < |busy| && !busy[log[i].entity.dest]
  }

  lemma FreshCons(d: Delivery, log: seq<Delivery>, busy: seq<bool>)
    requires d.entity.dest < |busy| && !busy[d.entity.dest] && FreshDests(log, busy[d.entity.dest := true])
    ensures FreshDests([d] + log, busy)
  {
    var busy' := busy[d.entity.dest := true];
    assert forall i :: 0 <= i < |busy| && !busy'[i] ==> !busy[i] && i != d.entity.dest;
  }

  lemma {:induction false} ServeDistinct(s: Net, busy: seq<bool>, node: nat)
    requires s.Valid() && |busy| == |s.ins| && node <= |s.ins|
    ensures FreshDests(Serve(s, busy, node).1, busy)
    decreases |s.ins| - node
  {
    hide Serve, Move, Wrap, FreshDests;
    if node < |s.ins| {
      ServeNext(s, busy, node);
      var src := Wrap(s.rrStart + node, |s.ins|);
      if s.Ready(src) && !busy[s.ins[src][0].dest] {
        var d, busy' := Delivery(src, s.ins[src][0]), busy[s.ins[src][0].dest := true];
        ServeDistinct(Move(s, src), busy', node + 1);
        hide Net.Valid;
        FreshCons(d, Serve(Move(s, src), busy', node + 1).1, busy);
      } else {
        ServeDistinct(s, busy, node + 1);
      }
    } else {
      ServeEnd(s, busy);
      NoneIsFresh(busy);
    }
  }

  lemma NoneIsFresh(busy: seq<bool>)
    ensures FreshDests([], busy)
  {
  }

  // Bounded waiting -----------------------------------------------------------------------------------

  /** How many cycles until src is first in the round. */
  function Distance(s: Net, src: nat): nat
    requires src < |s.ins| && s.rrStart < |s.ins|
  {
    if src >= s.rrStart then src - s.rrStart else src + |s.ins| - s.rrStart
  }

  /** A ready source that is first in the round is served. */
  lemma FirstIsServed(s: Net, src: nat)
    requires s.Valid() && src == s.rrStart && s.Ready(src)
    ensures FromSource(Delivered(s), src) != []
  {
    hide Serve, Move;
    var busy := Idle(|s.ins|);
    ServeNext(s, busy, 0);
    var r := Serve(Move(s, src), busy[s.ins[src][0].dest := true], 1);
    Cons(Delivery(src, s.ins[src][0]), r.1, src);
  }

  /** In one cycle a ready head is delivered, or it stays and its turn comes one cycle nearer. */
  lemma CycleServesOrNears(t: Trace, latency: nat, src: nat)
    requires WellFormed(t) && src < |t.net.ins| && t.net.Ready(src)
    ensures var v := Step(t, latency, Cycle);
            || FromSource(t.log, src) + [t.net.ins[src][0]] <= FromSource(v.log, src)
            || (FromSource(v.log, src) == FromSource(t.log, src) && v.net.ins[src] == t.net.ins[src]
                && v.net.Ready(src) && Distance(t.net, src) > 0 && Distance(v.net, src) == Distance(t.net, src) - 1)
  {
    var s := t.net;
    var served := CycleOf(t, latency, src);
    if served == [] {
      if src == s.rrStart {
        FirstIsServed(s, src);
      }
      hide FromSource, Delivered, Cycled, Net.Valid;
      assert [] + Cycled(s).ins[src] == Cycled(s).ins[src];
    } else {
      hide *;
      assert served == [s.ins[src][0]] + served[1..];
    }
  }

  /** What a cycle takes from src, seen from the queue and from the log. */
  lemma CycleOf(t: Trace, latency: nat, src: nat) returns (served: seq<Entity>)
    requires WellFormed(t) && src < |t.net.ins| && t.net.ins[src] != []
    ensures served == FromSource(Delivered(t.net), src)
    ensures t.net.ins[src] == served + Cycled(t.net).ins[src]
    ensures served != [] ==> served[0] == t.net.ins[src][0]
    ensures FromSource(Step(t, latency, Cycle).log, src) == FromSource(t.log, src) + served
  {
    served := FromSource(Delivered(t.net), src);
    ServeConserves(t.net, Idle(|t.net.ins|), 0, src);
    Append(t.log, Delivered(t.net), src);
    hide FromSource, Serve;
  }

  function Cycles(es: seq<Event>): nat {
    if es == [] then 0 else (if es[0].Cycle? then 1 else 0) + Cycles(es[1..])
  }

  lemma {:induction false} LogGrows(t: Trace, latency: nat, es: seq<Event>, u: Trace, src: nat)
    requires Runs(t, latency, es, u)
    ensures FromSource(t.log, src) <= FromSource(u.log, src)
    decreases |es|
  {
    if es != [] {
      var v := Step(t, latency, es[0]);
      hide FromSource, Serve, Possible;
      if es[0].Cycle? {
        Append(t.log, Delivered(t.net), src);
      }
      LogGrows(v, latency, es[1..], u, src);
    }
  }

  /** A ready head-of-queue packet is delivered within as many cycles as there are nodes, whatever is pushed
      and popped in between. */
  lemma {:induction false} BoundedWait(t: Trace, latency: nat, es: seq<Event>, u: Trace, src: nat)
    requires WellFormed(t) && src < |t.net.ins| && t.net.Ready(src)
    requires Runs(t, latency, es, u) && Cycles(es) >= |t.net.ins|
    ensures FromSource(t.log, src) + [t.net.ins[src][0]] <= FromSource(u.log, src)
  {
    WaitByDistance(t, latency, es, u, src);
  }

  lemma {:induction false} WaitByDistance(t: Trace, latency: nat, es: seq<Event>, u: Trace, src: nat)
    requires WellFormed(t) && src < |t.net.ins| && t.net.Ready(src)
    requires Runs(t, latency, es, u) && Cycles(es) > Distance(t.net, src)
    ensures FromSource(t.log, src) + [t.net.ins[src][0]] <= FromSource(u.log, src)
    decreases |es|
  {
    var v := Step(t, latency, es[0]);
    hide FromSource, Serve, Delivered;
    if es[0].Cycle? {
      CycleServesOrNears(t, latency, src);
      if FromSource(t.log, src) + [t.net.ins[src][0]] <= FromSource(v.log, src) {
        LogGrows(v, latency, es[1..], u, src);
      } else {
        WaitByDistance(v, latency, es[1..], u, src);
      }
    } else {
      WaitByDistance(v, latency, es[1..], u, src);
    }
  }
}
