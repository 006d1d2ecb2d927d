/** What becomes of requests that take a bypass, are held, or are in the DRAM: when they move on.
    ONNXim/src/Simulator.cc:351-362, 382-486. */
module BypassAnswers {
  import opened Options
  import Ssrc
  import opened PimBackend
  import opened Routing
  import opened DramOrder

  // Where a request goes ------------------------------------------------------------------------------

  /** An attention write of a request whose round is deferred goes to the coordinator's bypass; any other tagged
      request to the fused unit, if fusion is on; both on PIM channels, and only if they have a latency. The rest is
      held up to the channel's deadline, as far as that fits 32 bits, or goes to the DRAM. */
  lemma RouteIs(k: Setup, s: System, c: nat, a: Access, now: nat)
    requires Sized(k, s) && c < |s.channels|
    ensures var onPim := k.pim.active && k.pim.isPim[c];
            var staged := onPim && k.ssrc.enable && k.pim.ssrcCycles > 0 && a.write && a.tagged
                          && a.requestId != INVALID_REQUEST_ID && a.requestId in s.ssrc.active;
            var fused := onPim && k.pim.aauFusion && k.pim.aauCycles > 0 && a.tagged;
            var until := s.pim.holdUntil[c];
            RouteOf(k, s, c, a, now)
            == if staged then ToSsrc else if fused then ToAau
               else if onPim && until > now then ToHold(if until - now > MAX_HOLD then MAX_HOLD else until - now)
               else ToDram
  {
  }

  /** A bypass queue of a channel: the coordinator's, or that of the fused unit. */
  function Queue(ch: Channel, staged: bool): seq<Held> { if staged then ch.ssrc else ch.aau }

  function Latency(k: Setup, staged: bool): nat { if staged then k.pim.ssrcCycles else k.pim.aauCycles }

  predicate Takes(r: Route, staged: bool) { if staged then r.ToSsrc? else r.ToAau? }

  /** The request that is issued, and where it goes. */
  datatype Going = Nothing | Goes(access: Access, route: Route)

  ghost function Issue(k: Setup, s: System, c: nat, now: nat, full: Access -> bool): Going
    requires Sized(k, s) && c < |s.channels|
  {
    var ch := s.channels[c];
    if HasIncoming(k, ch, c) && !full(Incoming(k, ch, c, full))
    then Goes(Incoming(k, ch, c, full), RouteOf(k, s, c, Incoming(k, ch, c, full), now)) else Nothing
  }

  ghost function IssueOf(k: Setup, s: System, c: nat, e: Surroundings): Going
    requires Sized(k, s) && c < |s.channels|
  {
    AroundIssue(k, s, c, e);
    Issue(k, AtIssue(k, s, c, e), c, e.now, e.full)
  }

  /** What it adds to the end of a bypass queue and of the hold queue, and to the DRAM. */
  function Joining(k: Setup, g: Going, now: nat, staged: bool): seq<Held> {
    if g.Goes? && Takes(g.route, staged) then [Held(now + Latency(k, staged), g.access)] else []
  }

  function Holding(g: Going, now: nat): seq<Held> {
    if g.Goes? && g.route.ToHold? then [Held(now + g.route.cycles, g.access)] else []
  }

  function Pushing(g: Going): multiset<Access> {
    if g.Goes? && g.route.ToDram? then multiset{g.access} else multiset{}
  }

  /** The front of the queue is due and the interconnect accepts it. */
  predicate FrontGoes(k: Setup, q: seq<Held>, e: Surroundings) {
    k.pim.active && q != [] && q[0].release <= e.now && !e.icntFull(q[0].access)
  }

  function Rest(k: Setup, q: seq<Held>, e: Surroundings): seq<Held> { if FrontGoes(k, q, e) then q[1..] else q }

  function Answer(k: Setup, q: seq<Held>, e: Surroundings): seq<Access> {
    if FrontGoes(k, q, e) then [q[0].access] else []
  }

  function DramAnswer(ch: Channel, e: Surroundings): seq<Access> {
    if e.top.Some? && e.top.value in ch.dram && !e.icntFull(e.top.value) then [e.top.value] else []
  }

  lemma LandedQueues(k: Setup, ch: Channel, a: Access, r: Route, now: nat)
    ensures var g, ch' := Goes(a, r), Landed(k, ch, a, r, now);
            && ch'.aau == ch.aau + Joining(k, g, now, false) && ch'.ssrc == ch.ssrc + Joining(k, g, now, true)
            && ch'.responses == ch.responses && ch'.hold == ch.hold + Holding(g, now)
            && ch'.dram == ch.dram + Pushing(g)
  {
    assert ch.aau + [] == ch.aau && ch.ssrc + [] == ch.ssrc && ch.hold + [] == ch.hold;
    assert ch.dram + multiset{} == ch.dram;
  }

  lemma TakenQueues(k: Setup, ch: Channel, c: nat, full: Access -> bool)
    requires HasIncoming(k, ch, c)
    ensures var ch' := Taken(k, ch, c, full);
            && ch'.aau == ch.aau && ch'.ssrc == ch.ssrc && ch'.responses == ch.responses && ch'.hold == ch.hold
            && ch'.dram == ch.dram
  {
    hide Select;
  }

  lemma IssueQueues(k: Setup, s: System, c: nat, now: nat, full: Access -> bool)
    requires Sized(k, s) && c < |s.channels|
    ensures c < |Issued(k, s, c, now, full).channels|
    ensures var g, ch, ch' := Issue(k, s, c, now, full), s.channels[c], Issued(k, s, c, now, full).channels[c];
            && ch'.aau == ch.aau + Joining(k, g, now, false) && ch'.ssrc == ch.ssrc + Joining(k, g, now, true)
            && ch'.responses == ch.responses && ch'.hold == ch.hold + Holding(g, now)
            && ch'.dram == ch.dram + Pushing(g)
  {
    hide Incoming, HasIncoming, RouteOf, PimAfter, SsrcAfter, Taken, Landed;
    var ch := s.channels[c];
    if HasIncoming(k, ch, c) && !full(Incoming(k, ch, c, full)) {
      var a := Incoming(k, ch, c, full);
      TakenQueues(k, ch, c, full);
      LandedQueues(k, Taken(k, ch, c, full), a, RouteOf(k, s, c, a, now), now);
    } else {
      assert ch.aau + [] == ch.aau && ch.ssrc + [] == ch.ssrc && ch.hold + [] == ch.hold;
      assert ch.dram + multiset{} == ch.dram;
    }
  }

  /** Before the issue only the front of the hold queue moves: into the DRAM, once it is due and has room there. */
  lemma AtIssueQueues(k: Setup, s: System, c: nat, e: Surroundings)
    requires Sized(k, s) && c < |s.channels|
    ensures var ch, ch1 := s.channels[c], AtIssue(k, s, c, e).channels[c];
            var goes := k.pim.active && ch.hold != [] && ch.hold[0].release <= e.now && !e.fullFirst(ch.hold[0].access);
            && ch1.aau == ch.aau && ch1.ssrc == ch.ssrc && ch1.responses == ch.responses
            && ch1.hold == (if goes then ch.hold[1..] else ch.hold)
            && ch1.dram == (if goes then ch.dram + multiset{ch.hold[0].access} else ch.dram)
  {
  }

  lemma BypassQueues(k: Setup, ch: Channel, e: Surroundings)
    ensures var ch' := BypassDrained(k, ch, e.now, e.icntFull);
            && ch'.aau == Rest(k, ch.aau, e) && ch'.ssrc == Rest(k, ch.ssrc, e) && ch'.hold == ch.hold
            && ch'.responses == ch.responses + Answer(k, ch.aau, e) + Answer(k, ch.ssrc, e) && ch'.dram == ch.dram
  {
    assert ch.responses + [] == ch.responses;
  }

  lemma DramQueues(ch: Channel, e: Surroundings)
    ensures var ch' := Answered(ch, e.top, e.icntFull);
            && ch'.aau == ch.aau && ch'.ssrc == ch.ssrc && ch'.hold == ch.hold
            && ch'.responses == ch.responses + DramAnswer(ch, e) && ch'.dram == ch.dram - multiset(DramAnswer(ch, e))
  {
    assert ch.responses + [] == ch.responses && ch.dram - multiset{} == ch.dram;
  }

  /** All of what one turn does to what is not in front of the channel. What a bypass takes joins its queue; the front
      of either bypass queue is answered in this very turn if it is due and the interconnect accepts it, that of the
      fused unit first; then the DRAM answers what it has ready and holds, if that is accepted. The front of the hold
      queue enters the DRAM once it is due and the DRAM accepts it. */
  lemma TurnAnswers(k: Setup, s: System, c: nat, e: Surroundings)
    requires Sized(k, s) && c < |s.channels|
    ensures c < |Turn(k, s, c, e).channels|
    ensures var ch, ch', g := s.channels[c], Turn(k, s, c, e).channels[c], IssueOf(k, s, c, e);
            var aau, ssrc := ch.aau + Joining(k, g, e.now, false), ch.ssrc + Joining(k, g, e.now, true);
            var goes := k.pim.active && ch.hold != [] && ch.hold[0].release <= e.now && !e.fullFirst(ch.hold[0].access);
            var dram := ch.dram + (if goes then multiset{ch.hold[0].access} else multiset{}) + Pushing(g);
            var ready := e.top.Some? && e.top.value in dram && !e.icntFull(e.top.value);
            && ch'.aau == Rest(k, aau, e) && ch'.ssrc == Rest(k, ssrc, e)
            && ch'.hold == (if goes then ch.hold[1..] else ch.hold) + Holding(g, e.now)
            && ch'.responses == ch.responses + Answer(k, aau, e) + Answer(k, ssrc, e)
                                + (if ready then [e.top.value] else [])
            && ch'.dram == if ready then dram - multiset{e.top.value} else dram
  {
    hide AtIssue, Issued, BypassDrained, Answered, Joining, Rest, Answer, Holding, Pushing, Issue;
    AroundIssue(k, s, c, e);
    AtIssueQueues(k, s, c, e);
    var s1 := AtIssue(k, s, c, e);
    IssueQueues(k, s1, c, e.now, e.full);
    var ch2 := Issued(k, s1, c, e.now, e.full).channels[c];
    BypassQueues(k, ch2, e);
    DramQueues(BypassDrained(k, ch2, e.now, e.icntFull), e);
  }

  // Over whole runs -----------------------------------------------------------------------------------

  /** A turn of the channel. */
  predicate IsTurn(e: Event, c: nat) { e.action.ChannelTurn? && e.action.c == c }

  /** The queue that turn has before it, with what joins it. */
  ghost function Before(k: Setup, s: System, c: nat, e: Surroundings, staged: bool): seq<Held>
    requires Sized(k, s) && c < |s.channels|
  {
    Queue(s.channels[c], staged) + Joining(k, IssueOf(k, s, c, e), e.now, staged)
  }

  lemma TurnQueue(k: Setup, s: System, c: nat, e: Surroundings, staged: bool)
    requires Sized(k, s) && c < |s.channels|
    ensures c < |Turn(k, s, c, e).channels|
    ensures var ch, ch', q := s.channels[c], Turn(k, s, c, e).channels[c], Before(k, s, c, e, staged);
            && Queue(ch', staged) == Rest(k, q, e) && ch.responses <= ch'.responses
            && (FrontGoes(k, q, e) ==> q[0].access in ch'.responses[|ch.responses|..])
  {
    hide Turn, IssueOf, Joining;
    TurnAnswers(k, s, c, e);
    var ch, ch', g := s.channels[c], Turn(k, s, c, e).channels[c], IssueOf(k, s, c, e);
    var x := Answer(k, ch.aau + Joining(k, g, e.now, false), e);
    var y := Answer(k, ch.ssrc + Joining(k, g, e.now, true), e);
    assert exists z :: ch'.responses == ch.responses + x + y + z;
    var z :| ch'.responses == ch.responses + x + y + z;
    Behind(ch.responses, x, y, z);
  }

  lemma Behind(r: seq<Access>, x: seq<Access>, y: seq<Access>, z: seq<Access>)
    ensures r <= r + x + y + z && (r + x + y + z)[|r|..] == x + y + z
  {
  }

  /** Nothing else moves the queue, or takes a response back. */
  lemma StepQueue(k: Setup, s: System, e: Event, c: nat, staged: bool)
    requires Sized(k, s) && Possible(s, 0, e) && c < |s.channels| && !IsTurn(e, c)
    ensures c < |Step(k, s, e).channels|
    ensures Queue(Step(k, s, e).channels[c], staged) == Queue(s.channels[c], staged)
    ensures Step(k, s, e).channels[c].responses == s.channels[c].responses
  {
    hide Turn;
    if e.action.ChannelTurn? {
      AroundIssue(k, s, e.action.c, e.action.e);
    }
  }

  /** A bypass queue is sorted, and nothing in it is due later than its latency from now. */
  ghost predicate Sorted(q: seq<Held>, latest: nat) {
    && (forall i, j :: 0 <= i < j < |q| ==> q[i].release <= q[j].release)
    && forall i :: 0 <= i < |q| ==> q[i].release <= latest
  }

  lemma SortedTurn(k: Setup, q: seq<Held>, g: Going, now: nat, e: Surroundings, staged: bool)
    requires Sorted(q, now + Latency(k, staged)) && now <= e.now
    ensures Sorted(Rest(k, q + Joining(k, g, e.now, staged), e), e.now + Latency(k, staged))
  {
  }

  lemma StepSorted(k: Setup, s: System, now: nat, e: Event, c: nat, staged: bool)
    requires Sized(k, s) && Possible(s, now, e) && c < |s.channels|
    requires Sorted(Queue(s.channels[c], staged), now + Latency(k, staged))
    ensures c < |Step(k, s, e).channels|
    ensures Sorted(Queue(Step(k, s, e).channels[c], staged), e.now + Latency(k, staged))
  {
    hide Turn, Joining, Rest, IssueOf;
    if IsTurn(e, c) {
      TurnQueue(k, s, c, e.action.e, staged);
      SortedTurn(k, Queue(s.channels[c], staged), IssueOf(k, s, c, e.action.e), now, e.action.e, staged);
    } else {
      StepQueue(k, s, e, c, staged);
    }
  }

  lemma {:induction false} RunSorted(k: Setup, s: System, now: nat, es: seq<Event>, t: System, end: nat, c: nat,
                                     staged: bool)
    requires Runs(k, s, now, es, t, end) && c < |s.channels|
    requires Sorted(Queue(s.channels[c], staged), now + Latency(k, staged))
    ensures c < |t.channels| && Sorted(Queue(t.channels[c], staged), end + Latency(k, staged))
    decreases |es|
  {
    hide Step, Sorted, Possible;
    if es != [] {
      StepSorted(k, s, now, es[0], c, staged);
      PossibleNow(s, now, es[0]);
      RunSorted(k, Step(k, s, es[0]), es[0].now, es[1..], t, end, c, staged);
    }
  }

  lemma PossibleNow(s: System, now: nat, e: Event)
    requires Possible(s, now, e)
    ensures Possible(s, 0, e) && now <= e.now
  {
  }

  /** What is not due stays where it is in the queue's order. */
  lemma StepWaits(k: Setup, s: System, e: Event, c: nat, staged: bool, x: Held)
    requires Sized(k, s) && Possible(s, 0, e) && c < |s.channels|
    requires x in Queue(s.channels[c], staged) && x.release > e.now
    ensures c < |Step(k, s, e).channels| && x in Queue(Step(k, s, e).channels[c], staged)
  {
    hide Turn, Joining, IssueOf, Queue;
    if IsTurn(e, c) {
      TurnQueue(k, s, c, e.action.e, staged);
      var joining := Joining(k, IssueOf(k, s, c, e.action.e), e.now, staged);
      RestKeeps(k, Queue(s.channels[c], staged), joining, e.action.e, x);
    } else {
      StepQueue(k, s, e, c, staged);
    }
  }

  lemma RestKeeps(k: Setup, q: seq<Held>, more: seq<Held>, e: Surroundings, x: Held)
    requires x in q && x.release > e.now
    ensures x in Rest(k, q + more, e)
  {
    var i :| 0 <= i < |q| && q[i] == x;
    assert (q + more)[i] == x;
    if FrontGoes(k, q + more, e) {
      assert (q + more)[1..][i - 1] == x;
    }
  }

  lemma {:induction false} RunWaits(k: Setup, s: System, now: nat, es: seq<Event>, t: System, end: nat, c: nat,
                                    staged: bool, x: Held)
    requires Runs(k, s, now, es, t, end) && c < |s.channels|
    requires x in Queue(s.channels[c], staged) && x.release > end
    ensures c < |t.channels| && x in Queue(t.channels[c], staged)
    decreases |es|
  {
    hide Step, Possible, Queue;
    if es != [] {
      PossibleNow(s, now, es[0]);
      RunLater(k, Step(k, s, es[0]), es[0].now, es[1..], t, end);
      StepWaits(k, s, es[0], c, staged, x);
      RunWaits(k, Step(k, s, es[0]), es[0].now, es[1..], t, end, c, staged, x);
    }
  }

  lemma JoinsQueue(k: Setup, s: System, c: nat, e: Surroundings, a: Access, staged: bool)
    requires Sized(k, s) && c < |s.channels| && Latency(k, staged) > 0
    requires var g := IssueOf(k, s, c, e); g.Goes? && g.access == a && Takes(g.route, staged)
    ensures c < |Turn(k, s, c, e).channels|
    ensures Held(e.now + Latency(k, staged), a) in Queue(Turn(k, s, c, e).channels[c], staged)
  {
    hide Turn, IssueOf;
    TurnQueue(k, s, c, e, staged);
    var q, x := Queue(s.channels[c], staged), Held(e.now + Latency(k, staged), a);
    assert x in [x];
    LastStays(k, q, x, e);
  }

  lemma LastStays(k: Setup, q: seq<Held>, x: Held, e: Surroundings)
    requires x.release > e.now
    ensures x in Rest(k, q + [x], e)
  {
    assert (q + [x])[|q|] == x;
    if FrontGoes(k, q + [x], e) {
      assert (q + [x])[1..][|q| - 1] == x;
    }
  }

  lemma QueuedIsNowhereElse(ch: Channel, x: Held, staged: bool)
    requires Flow(ch) && multiset(ch.arrivals)[x.access] == 1 && x in Queue(ch, staged)
    ensures x.access !in ch.entered && x.access !in ch.responses
  {
    InBag(Queue(ch, staged), x);
    assert Placed(ch, x.access, multiset{});
    ExactlyOnePlace(ch, x.access);
  }

  lemma LatencyPositive(k: Setup, s: System, c: nat, e: Surroundings, staged: bool)
    requires Sized(k, s) && c < |s.channels|
    requires IssueOf(k, s, c, e).Goes? && Takes(IssueOf(k, s, c, e).route, staged)
    ensures Latency(k, staged) > 0
  {
    AroundIssue(k, s, c, e);
    hide AtIssue, Incoming, HasIncoming, Select;
  }

  /** Over every run: a request that a turn hands to a bypass in cycle t is in its queue, and neither in the DRAM nor
      answered, before t and the latency of the bypass have passed. */
  lemma AnsweredNotBefore(k: Setup, es: seq<Event>, s: System, now: nat, c: nat, e: Surroundings, a: Access,
                          staged: bool, more: seq<Event>, t: System, end: nat)
    requires Runs(k, Start(k), 0, es, s, now) && Possible(s, now, At(e.now, ChannelTurn(c, e))) && Sized(k, s)
    requires var g := IssueOf(k, s, c, e); g.Goes? && g.access == a && Takes(g.route, staged)
    requires Runs(k, Turn(k, s, c, e), e.now, more, t, end) && end < e.now + Latency(k, staged)
    ensures c < |t.channels| && Held(e.now + Latency(k, staged), a) in Queue(t.channels[c], staged)
    ensures multiset(t.channels[c].arrivals)[a] == 1 ==>
              a !in t.channels[c].entered && a !in t.channels[c].responses
  {
    hide Turn, IssueOf, Runs, Queue, Inv;
    EveryRunKeeps(k, es, s, now);
    LatencyPositive(k, s, c, e, staged);
    JoinsQueue(k, s, c, e, a, staged);
    TurnKeeps(k, s, c, now, e);
    RunKeeps(k, Turn(k, s, c, e), e.now, more, t, end);
    RunWaits(k, Turn(k, s, c, e), e.now, more, t, end, c, staged, Held(e.now + Latency(k, staged), a));
    if multiset(t.channels[c].arrivals)[a] == 1 {
      InvAt(k, t, end, c);
      hide ChannelInv;
      FlowAt(k, t.channels[c], c, t.pim.holdUntil[c], end);
      QueuedIsNowhereElse(t.channels[c], Held(e.now + Latency(k, staged), a), staged);
    }
  }

  lemma FlowAt(k: Setup, ch: Channel, c: nat, until: nat, now: nat)
    requires ChannelInv(k, ch, c, until, now)
    ensures Flow(ch)
  {
  }

  /** The turns of the channel in a run in which the interconnect accepts what is then at the front of the queue. */
  ghost function Grants(k: Setup, s: System, es: seq<Event>, c: nat, staged: bool): nat
    decreases |es|
  {
    if es == [] || !Sized(k, s) || !Possible(s, 0, es[0]) || c >= |s.channels| then 0
    else
      (if IsTurn(es[0], c) && Granted(k, s, c, es[0].action.e, staged) then 1 else 0)
      + Grants(k, Step(k, s, es[0]), es[1..], c, staged)
  }

  ghost predicate Granted(k: Setup, s: System, c: nat, e: Surroundings, staged: bool)
    requires Sized(k, s) && c < |s.channels|
  {
    var q := Before(k, s, c, e, staged);
    q != [] && !e.icntFull(q[0].access)
  }

  /** One event, seen from entry n of the queue: it is answered, or comes one nearer, or stays. */
  lemma StepNears(k: Setup, s: System, now: nat, e: Event, c: nat, staged: bool, n: nat)
    requires Sized(k, s) && Possible(s, now, e) && Possible(s, 0, e) && c < |s.channels| && k.pim.active
    requires n < |Queue(s.channels[c], staged)|
    requires forall i :: 0 <= i <= n ==> Queue(s.channels[c], staged)[i].release <= now
    ensures c < |Step(k, s, e).channels|
    ensures var q, ch, ch' := Queue(s.channels[c], staged), s.channels[c], Step(k, s, e).channels[c];
            && ch.responses <= ch'.responses
            && if IsTurn(e, c) && Granted(k, s, c, e.action.e, staged) then
                 if n == 0 then q[0].access in ch'.responses[|ch.responses|..]
                 else q[1..n + 1] <= Queue(ch', staged)
               else q[..n + 1] <= Queue(ch', staged)
  {
    hide Turn, Joining, IssueOf, Queue;
    var q := Queue(s.channels[c], staged);
    if IsTurn(e, c) {
      TurnQueue(k, s, c, e.action.e, staged);
      var b := Before(k, s, c, e.action.e, staged);
      assert b[0] == q[0] && b[..n + 1] == q[..n + 1];
      assert b[1..][..n] == q[1..n + 1];
    } else {
      StepQueue(k, s, e, c, staged);
    }
  }

  lemma Grown(a: seq<Access>, b: seq<Access>, c: seq<Access>, x: Access)
    requires a <= b <= c
    ensures x in c[|b|..] ==> x in c[|a|..]
    ensures x in b[|a|..] ==> x in c[|a|..]
  {
    if i :| |b| <= i < |c| && c[i] == x {
      assert c[|a|..][i - |a|] == x;
    }
    if i :| |a| <= i < |b| && b[i] == x {
      assert c[|a|..][i - |a|] == x;
    }
  }

  lemma {:induction false} ResponsesStay(k: Setup, s: System, now: nat, es: seq<Event>, t: System, end: nat, c: nat)
    requires Runs(k, s, now, es, t, end) && c < |s.channels|
    ensures c < |t.channels| && s.channels[c].responses <= t.channels[c].responses
    decreases |es|
  {
    hide Step, Possible;
    if es != [] {
      PossibleNow(s, now, es[0]);
      StepResponses(k, s, es[0], c);
      ResponsesStay(k, Step(k, s, es[0]), es[0].now, es[1..], t, end, c);
    }
  }

  lemma StepResponses(k: Setup, s: System, e: Event, c: nat)
    requires Sized(k, s) && Possible(s, 0, e) && c < |s.channels|
    ensures c < |Step(k, s, e).channels| && s.channels[c].responses <= Step(k, s, e).channels[c].responses
  {
    hide Turn, Before, Queue, Rest;
    if IsTurn(e, c) {
      TurnQueue(k, s, c, e.action.e, false);
    } else {
      StepQueue(k, s, e, c, false);
    }
  }

  /** A due entry with n others in front of it is answered by the turn in which the interconnect accepts the front of
      the queue for the (n + 1)-st time. */
  lemma {:induction false} AnsweredInTurn(k: Setup, s: System, now: nat, es: seq<Event>, t: System, end: nat, c: nat,
                                          staged: bool, n: nat)
    requires Runs(k, s, now, es, t, end) && Sized(k, s) && c < |s.channels| && k.pim.active
    requires n < |Queue(s.channels[c], staged)|
    requires forall i :: 0 <= i <= n ==> Queue(s.channels[c], staged)[i].release <= now
    requires Grants(k, s, es, c, staged) > n
    ensures c < |t.channels| && s.channels[c].responses <= t.channels[c].responses
    ensures Queue(s.channels[c], staged)[n].access in t.channels[c].responses[|s.channels[c].responses|..]
    decreases |es|
  {
    hide Step, Possible, Queue, Granted, Sized;
    var q, u := Queue(s.channels[c], staged), Step(k, s, es[0]);
    PossibleNow(s, now, es[0]);
    StepNears(k, s, now, es[0], c, staged, n);
    RunSized(k, u, es[0].now, es[1..], t, end);
    ResponsesStay(k, s, now, es, t, end, c);
    ResponsesStay(k, u, es[0].now, es[1..], t, end, c);
    if IsTurn(es[0], c) && Granted(k, s, c, es[0].action.e, staged) {
      if n > 0 {
        Ahead(q, Queue(u.channels[c], staged), 1, n, es[0].now, now);
        AnsweredInTurn(k, u, es[0].now, es[1..], t, end, c, staged, n - 1);
      }
    } else {
      Ahead(q, Queue(u.channels[c], staged), 0, n, es[0].now, now);
      AnsweredInTurn(k, u, es[0].now, es[1..], t, end, c, staged, n);
    }
    Grown(s.channels[c].responses, u.channels[c].responses, t.channels[c].responses, q[n].access);
  }

  /** The entries in front of the n-th, after `gone` of them have left. */
  lemma Ahead(q: seq<Held>, q': seq<Held>, gone: nat, n: nat, later: nat, now: nat)
    requires gone <= n < |q| && q[gone..n + 1] <= q' && now <= later
    requires forall i :: 0 <= i <= n ==> q[i].release <= now
    ensures n - gone < |q'| && q'[n - gone] == q[n] && forall i :: 0 <= i <= n - gone ==> q'[i].release <= later
  {
    assert q[gone..n + 1][n - gone] == q[n];
    forall i | 0 <= i <= n - gone
      ensures q'[i].release <= later
    {
      assert q'[i] == q[gone..n + 1][i] == q[gone + i];
    }
  }

  lemma RunSized(k: Setup, s: System, now: nat, es: seq<Event>, t: System, end: nat)
    requires Runs(k, s, now, es, t, end)
    ensures es != [] ==> Sized(k, s)
  {
  }

  /** Over every run: what is in a bypass queue, once it is due, is answered by the turn in which the interconnect
      accepts the front of that queue for the (n + 1)-st time, if n requests are before it; they are due as well. */
  lemma EveryBypassIsAnswered(k: Setup, es: seq<Event>, s: System, now: nat, c: nat, staged: bool, n: nat,
                              more: seq<Event>, t: System, end: nat)
    requires Runs(k, Start(k), 0, es, s, now) && Runs(k, s, now, more, t, end) && c < |s.channels| && k.pim.active
    requires n < |Queue(s.channels[c], staged)| && Queue(s.channels[c], staged)[n].release <= now
    requires Grants(k, s, more, c, staged) > n
    ensures c < |t.channels| && s.channels[c].responses <= t.channels[c].responses
    ensures Queue(s.channels[c], staged)[n].access in t.channels[c].responses[|s.channels[c].responses|..]
  {
    hide Runs, Queue, Inv, Grants;
    EveryRunKeeps(k, es, s, now);
    InvSized(k, s, now);
    StartSorted(k, c, staged, |s.channels|);
    ChannelsStay(k, es, s, now);
    RunSorted(k, Start(k), 0, es, s, now, c, staged);
    AnsweredInTurn(k, s, now, more, t, end, c, staged, n);
  }

  lemma ChannelsStay(k: Setup, es: seq<Event>, s: System, now: nat)
    requires Inv(k, s, now)
    ensures |s.channels| == |Start(k).channels|
  {
    hide ChannelInv, Counts;
  }

  lemma StartSorted(k: Setup, c: nat, staged: bool, n: nat)
    requires c < |Start(k).channels|
    ensures Sorted(Queue(Start(k).channels[c], staged), Latency(k, staged))
  {
  }
}
