/** Who is served in a cycle of the crossbar, and when. ONNXim/src/Interconnect.cc:27-56. */
module CrossbarTiming {
  import opened Crossbar

  // Who is served -------------------------------------------------------------------------------------

  /** The head of src is ready to leave. */
  predicate Due(s: Net, src: nat)
    requires src < |s.ins|
  {
    s.ins[src] != [] && s.ins[src][0].finishCycle <= s.cycles
  }

  /** From position `node` of the round on, src gets the node it sends to: that is free, and no source before src in
      the round has something due for it. */
  ghost predicate WinsFrom(s: Net, busy: seq<bool>, node: nat, src: nat)
    requires s.Valid() && |busy| == |s.ins| && src < |s.ins|
  {
    && Due(s, src) && !busy[s.ins[src][0].dest] && node <= Distance(s, src)
    && forall r :: 0 <= r < |s.ins| && node <= Distance(s, r) < Distance(s, src) && Due(s, r) ==>
         s.ins[r][0].dest != s.ins[src][0].dest
  }

  /** Of all sources with something due for the same node src is first in the round. */
  ghost predicate Wins(s: Net, src: nat)
    requires s.Valid() && src < |s.ins|
  {
    && Due(s, src)
    && forall r :: 0 <= r < |s.ins| && Distance(s, r) < Distance(s, src) && Due(s, r) ==>
         s.ins[r][0].dest != s.ins[src][0].dest
  }

  lemma AtDistance(s: Net, node: nat)
    requires s.Valid() && node < |s.ins|
    ensures Distance(s, Wrap(s.rrStart + node, |s.ins|)) == node
    ensures forall r :: 0 <= r < |s.ins| && Distance(s, r) == node ==> r == Wrap(s.rrStart + node, |s.ins|)
  {
  }

  lemma MovedNet(s: Net, src: nat)
    requires s.Valid() && src < |s.ins| && s.ins[src] != []
    ensures var t := Move(s, src);
            && t.Valid() && |t.ins| == |s.ins| && t.rrStart == s.rrStart && t.cycles == s.cycles
            && forall r :: 0 <= r < |s.ins| && r != src ==> t.ins[r] == s.ins[r]
  {
  }

  lemma WinsOnMove(s: Net, busy: seq<bool>, node: nat, src: nat)
    requires s.Valid() && |busy| == |s.ins| && node < |s.ins| && src < |s.ins|
    requires var at := Wrap(s.rrStart + node, |s.ins|); Due(s, at) && !busy[s.ins[at][0].dest] && src != at
    ensures var at := Wrap(s.rrStart + node, |s.ins|);
            WinsFrom(s, busy, node, src) <==> WinsFrom(Move(s, at), busy[s.ins[at][0].dest := true], node + 1, src)
  {
    var at := Wrap(s.rrStart + node, |s.ins|);
    AtDistance(s, node);
    MovedNet(s, at);
    hide Move, Wrap;
    var t := Move(s, at);
    assert forall r :: 0 <= r < |s.ins| ==> Distance(t, r) == Distance(s, r);
    if WinsFrom(t, busy[s.ins[at][0].dest := true], node + 1, src) {
      forall r | 0 <= r < |s.ins| && node <= Distance(s, r) < Distance(s, src) && Due(s, r)
        ensures s.ins[r][0].dest != s.ins[src][0].dest
      {
        if r != at {
          assert Due(t, r);
        }
      }
    }
  }

  lemma WinsOnPass(s: Net, busy: seq<bool>, node: nat, src: nat)
    requires s.Valid() && |busy| == |s.ins| && node < |s.ins| && src < |s.ins|
    requires var at := Wrap(s.rrStart + node, |s.ins|); !(Due(s, at) && !busy[s.ins[at][0].dest])
    ensures WinsFrom(s, busy, node, src) <==> WinsFrom(s, busy, node + 1, src)
  {
    AtDistance(s, node);
    hide Wrap;
  }

  lemma {:induction false} ServedFrom(s: Net, busy: seq<bool>, node: nat, src: nat)
    requires s.Valid() && |busy| == |s.ins| && node <= |s.ins| && src < |s.ins|
    ensures FromSource(Serve(s, busy, node).1, src) == if WinsFrom(s, busy, node, src) then [s.ins[src][0]] else []
    decreases |s.ins| - node
  {
    hide Serve, Move, FromSource, Wrap, WinsFrom;
    if node == |s.ins| {
      NobodyLeft(s, busy, src);
    } else {
      var at := Wrap(s.rrStart + node, |s.ins|);
      if Due(s, at) && !busy[s.ins[at][0].dest] {
        ServedFrom(Move(s, at), busy[s.ins[at][0].dest := true], node + 1, src);
        MoveServes(s, busy, node, src);
      } else {
        ServedFrom(s, busy, node + 1, src);
        WinsOnPass(s, busy, node, src);
        ServeNext(s, busy, node);
      }
    }
  }

  lemma NobodyLeft(s: Net, busy: seq<bool>, src: nat)
    requires s.Valid() && |busy| == |s.ins| && src < |s.ins|
    ensures FromSource(Serve(s, busy, |s.ins|).1, src) == [] && !WinsFrom(s, busy, |s.ins|, src)
  {
  }

  /** The turn of a source that is served, before the rest of the round. */
  lemma MoveServes(s: Net, busy: seq<bool>, node: nat, src: nat)
    requires s.Valid() && |busy| == |s.ins| && node < |s.ins| && src < |s.ins|
    requires var at := Wrap(s.rrStart + node, |s.ins|); Due(s, at) && !busy[s.ins[at][0].dest]
    requires var at := Wrap(s.rrStart + node, |s.ins|);
             var t, busy' := Move(s, at), busy[s.ins[at][0].dest := true];
             FromSource(Serve(t, busy', node + 1).1, src)
               == if WinsFrom(t, busy', node + 1, src) then [t.ins[src][0]] else []
    ensures FromSource(Serve(s, busy, node).1, src) == if WinsFrom(s, busy, node, src) then [s.ins[src][0]] else []
  {
    hide Serve, Move, FromSource, Wrap, WinsFrom;
    var at := Wrap(s.rrStart + node, |s.ins|);
    var t, busy' := Move(s, at), busy[s.ins[at][0].dest := true];
    var rest := Serve(t, busy', node + 1).1;
    ServeNext(s, busy, node);
    MovedNet(s, at);
    Cons(Delivery(at, s.ins[at][0]), rest, src);
    if src == at {
      AtDistance(s, node);
      TurnWins(s, busy, node);
      PastTurn(t, busy', node + 1, at);
    } else {
      WinsOnMove(s, busy, node, src);
    }
  }

  lemma TurnWins(s: Net, busy: seq<bool>, node: nat)
    requires s.Valid() && |busy| == |s.ins| && node < |s.ins|
    requires var at := Wrap(s.rrStart + node, |s.ins|); Due(s, at) && !busy[s.ins[at][0].dest]
    ensures WinsFrom(s, busy, node, Wrap(s.rrStart + node, |s.ins|))
  {
    AtDistance(s, node);
  }

  lemma PastTurn(s: Net, busy: seq<bool>, node: nat, src: nat)
    requires s.Valid() && |busy| == |s.ins| && src < |s.ins| && Distance(s, src) < node
    ensures !WinsFrom(s, busy, node, src)
  {
  }

  /** One cycle takes from each source its head exactly if that is due and the source is first in the round among all
      that have something due for the same node, and nothing otherwise. */
  lemma ServedIff(s: Net, src: nat)
    requires s.Valid() && src < |s.ins|
    ensures FromSource(Delivered(s), src) == if Wins(s, src) then [s.ins[src][0]] else []
    ensures Cycled(s).ins[src] == if Wins(s, src) then s.ins[src][1..] else s.ins[src]
    ensures Cycled(s).cycles == s.cycles + 1
  {
    hide Serve, FromSource;
    ServedFrom(s, Idle(|s.ins|), 0, src);
    ServeConserves(s, Idle(|s.ins|), 0, src);
    assert WinsFrom(s, Idle(|s.ins|), 0, src) <==> Wins(s, src);
  }

  // When ----------------------------------------------------------------------------------------------

  /** The packets of a source become due one after the other, a cycle apart. */
  ghost predicate Paced(q: seq<Entity>) {
    forall j :: 0 <= j < |q| - 1 ==> q[j + 1].finishCycle == q[j].finishCycle + 1
  }

  ghost predicate AllPaced(s: Net) {
    forall src :: 0 <= src < |s.ins| ==> Paced(s.ins[src])
  }

  lemma StepPaced(t: Trace, latency: nat, e: Event)
    requires WellFormed(t) && Possible(t.net, e) && AllPaced(t.net)
    ensures WellFormed(Step(t, latency, e)) && AllPaced(Step(t, latency, e).net)
  {
    hide Delivered, Serve;
    if e.Cycle? {
      forall src | 0 <= src < |t.net.ins|
        ensures Paced(Cycled(t.net).ins[src])
      {
        hide Cycled;
        ServedIff(t.net, src);
        assert Paced(t.net.ins[src]);
        hide Wins;
      }
    }
  }

  lemma {:induction false} RunPaced(t: Trace, latency: nat, es: seq<Event>, u: Trace)
    requires WellFormed(t) && AllPaced(t.net) && Runs(t, latency, es, u)
    ensures WellFormed(u) && AllPaced(u.net)
    decreases |es|
  {
    if es != [] {
      hide Step, AllPaced, Possible;
      StepPaced(t, latency, es[0]);
      RunPaced(Step(t, latency, es[0]), latency, es[1..], u);
    }
  }

  /** Over every run: once the head of a source is delivered, the next packet of that source is due in the very next
      cycle, and it was not before. */
  lemma NextIsDue(nodes: nat, rrStart: nat, latency: nat, es: seq<Event>, u: Trace, src: nat)
    requires rrStart < nodes && Runs(Start(nodes, rrStart), latency, es, u) && WellFormed(u)
    requires src < |u.net.ins| && |u.net.ins[src]| > 1
    ensures Wins(u.net, src) ==> Due(Cycled(u.net), src)
    ensures u.net.ins[src][1].finishCycle == u.net.ins[src][0].finishCycle + 1
  {
    hide Runs, Cycled;
    RunPaced(Start(nodes, rrStart), latency, es, u);
    assert Paced(u.net.ins[src]);
    ServedIff(u.net, src);
  }

  /** What one event does to the head of a source and to what was delivered from it. */
  lemma HeadStays(t: Trace, latency: nat, e: Event, src: nat)
    requires WellFormed(t) && Possible(t.net, e) && src < |t.net.ins| && t.net.ins[src] != []
    requires !(e.Cycle? && Wins(t.net, src))
    ensures var v := Step(t, latency, e);
            && WellFormed(v) && |v.net.ins| == |t.net.ins| && v.net.ins[src] != []
            && v.net.ins[src][0] == t.net.ins[src][0]
            && FromSource(v.log, src) == FromSource(t.log, src)
            && v.net.cycles == t.net.cycles + if e.Cycle? then 1 else 0
  {
    hide Delivered, Serve, FromSource, Cycled;
    if e.Cycle? {
      ServedIff(t.net, src);
      Append(t.log, Delivered(t.net), src);
      assert FromSource(t.log, src) + [] == FromSource(t.log, src);
      hide Wins;
    }
  }

  /** Nothing is delivered from a source before its head is due. */
  lemma {:induction false} NotBeforeDue(t: Trace, latency: nat, es: seq<Event>, u: Trace, src: nat)
    requires WellFormed(t) && src < |t.net.ins| && t.net.ins[src] != [] && Runs(t, latency, es, u)
    requires t.net.cycles + Cycles(es) <= t.net.ins[src][0].finishCycle
    ensures FromSource(u.log, src) == FromSource(t.log, src)
    decreases |es|
  {
    if es != [] {
      hide Step, FromSource, Possible;
      HeadStays(t, latency, es[0], src);
      NotBeforeDue(Step(t, latency, es[0]), latency, es[1..], u, src);
    }
  }

  /** Once it is due it is delivered within as many cycles as there are nodes. */
  lemma {:induction false} SoonAfterDue(t: Trace, latency: nat, es: seq<Event>, u: Trace, src: nat)
    requires WellFormed(t) && src < |t.net.ins| && t.net.ins[src] != [] && Runs(t, latency, es, u)
    requires t.net.cycles <= t.net.ins[src][0].finishCycle
    requires t.net.cycles + Cycles(es) >= t.net.ins[src][0].finishCycle + |t.net.ins|
    ensures FromSource(t.log, src) + [t.net.ins[src][0]] <= FromSource(u.log, src)
    decreases |es|
  {
    hide Step, FromSource, Possible;
    if t.net.Ready(src) {
      BoundedWait(t, latency, es, u, src);
    } else {
      HeadStays(t, latency, es[0], src);
      SoonAfterDue(Step(t, latency, es[0]), latency, es[1..], u, src);
    }
  }

  /** A packet that finds its in-buffer empty is not delivered in the next `latency` cycles, and then within as many
      cycles as there are nodes, whatever else is pushed and popped. */
  lemma DeliveredAfterLatency(t: Trace, latency: nat, src: nat, dest: nat, access: Access, es: seq<Event>, u: Trace)
    requires WellFormed(t) && src < |t.net.ins| && dest < |t.net.ins| && t.net.ins[src] == []
    requires Runs(Step(t, latency, Push(src, dest, access)), latency, es, u)
    ensures Cycles(es) <= latency ==> FromSource(u.log, src) == FromSource(t.log, src)
    ensures Cycles(es) >= latency + |t.net.ins| ==>
              exists x: Entity ::
                x.dest == dest && x.access == access && FromSource(t.log, src) + [x] <= FromSource(u.log, src)
  {
    hide FromSource, Runs;
    var v := Step(t, latency, Push(src, dest, access));
    if Cycles(es) <= latency {
      NotBeforeDue(v, latency, es, u, src);
    }
    if Cycles(es) >= latency + |t.net.ins| {
      SoonAfterDue(v, latency, es, u, src);
    }
  }
}
