/** The memory-channel part of a simulator cycle: ONNXim/src/Simulator.cc:342-486. */
module Routing {
  import opened Options
  import Ssrc
  import opened PimBackend

  datatype Held = Held(release: nat, access: Access)

  /** The queues of one channel. The DRAM is a bag: when it answers is up to it. The rest is history: `entered`
      and `bypassed` are everything that was ever pushed into the DRAM or taken by a bypass, `arrivals` everything
      that came in and `left` everything that left the queues in front, both in order. */
  datatype Channel = Channel(icnt: seq<Access>, ooo: seq<Access>, hold: seq<Held>, aau: seq<Held>, ssrc: seq<Held>,
                             dram: multiset<Access>, responses: seq<Access>, entered: multiset<Access>,
                             bypassed: multiset<Access>, arrivals: seq<Access>, left: seq<Access>)

  const EMPTY := Channel([], [], [], [], [], multiset{}, [], multiset{}, multiset{}, [], [])

  datatype System = System(channels: seq<Channel>, pim: Pim, ssrc: Ssrc.State, issued: nat, slots: nat)

  /** The configuration: PIM overlay, coordinator, command scheduler, issue-queue entries. */
  datatype Setup = Setup(pim: Config, ssrc: Ssrc.Config, sched: bool, entries: nat)

  ghost predicate Sized(k: Setup, s: System) {
    s.pim.Valid(k.pim) && |s.channels| == |k.pim.isPim|
  }

  // Command selection ---------------------------------------------------------------------------------

  const SPEC_TASK_VERIFY := 3
  const SPEC_TASK_PRE_VERIFY := 4

  predicate IsTlmRead(a: Access) {
    !a.write && (a.task == SPEC_TASK_VERIFY || a.task == SPEC_TASK_PRE_VERIFY)
  }

  /** The first position at or after i whose access is a TLM read if tlm asks for one, and accepted by the
      DRAM if open asks for that; the length of the queue if there is none. */
  function First(q: seq<Access>, full: Access -> bool, tlm: bool, open: bool, i: nat): (r: nat)
    requires i <= |q|
    ensures i <= r <= |q|
    decreases |q| - i
  {
    if i == |q| then i
    else if (tlm ==> IsTlmRead(q[i])) && (open ==> !full(q[i])) then i
    else First(q, full, tlm, open, i + 1)
  }

  lemma {:induction false} FirstFacts(q: seq<Access>, full: Access -> bool, tlm: bool, open: bool, i: nat)
    requires i <= |q|
    ensures var r := First(q, full, tlm, open, i);
            && (r < |q| ==> (tlm ==> IsTlmRead(q[r])) && (open ==> !full(q[r])))
            && (forall j :: i <= j < r ==> !((tlm ==> IsTlmRead(q[j])) && (open ==> !full(q[j]))))
    decreases |q| - i
  {
    if i < |q| {
      FirstFacts(q, full, tlm, open, i + 1);
    }
  }

  function Select(sched: bool, q: seq<Access>, full: Access -> bool): (i: nat)
    requires q != []
    ensures i < |q|
  {
    if !sched then 0
    else if First(q, full, true, true, 0) < |q| then First(q, full, true, true, 0)
    else if First(q, full, false, true, 0) < |q| then First(q, full, false, true, 0)
    else if First(q, full, true, false, 0) < |q| then First(q, full, true, false, 0)
    else 0
  }

  /** With the scheduler on, an acceptable command is selected whenever there is one: the oldest acceptable
      TLM read if there is any, else the oldest acceptable command. With it off, always the oldest. */
  lemma SelectionPolicy(sched: bool, q: seq<Access>, full: Access -> bool)
    requires q != []
    ensures var i := Select(sched, q, full);
            && (!sched ==> i == 0)
            && (sched && (exists j :: 0 <= j < |q| && !full(q[j])) ==> !full(q[i]))
            && (sched && (exists j :: 0 <= j < |q| && !q[j].write && q[j].task in {3, 4} && !full(q[j])) ==>
                  IsTlmRead(q[i]) && forall j :: 0 <= j < i ==> !(IsTlmRead(q[j]) && !full(q[j])))
            && (sched && !(exists j :: 0 <= j < |q| && IsTlmRead(q[j]) && !full(q[j]))
                && (exists j :: 0 <= j < |q| && !full(q[j])) ==>
                  forall j :: 0 <= j < i ==> full(q[j]))
  {
    FirstFacts(q, full, true, true, 0);
    FirstFacts(q, full, false, true, 0);
    FirstFacts(q, full, true, false, 0);
  }

  // The phases of a channel's turn --------------------------------------------------------------------

  function WithChannel(s: System, c: nat, ch: Channel): System
    requires c < |s.channels|
  {
    s.(channels := s.channels[c := ch])
  }

  /** Counting a candidate slot. */
  function Noted(k: Setup, s: System, c: nat): System
    requires c < |s.channels|
  {
    var ch := s.channels[c];
    if k.pim.IsPimChannel(c) && (ch.hold != [] || ch.ooo != [] || ch.icnt != []) then s.(slots := s.slots + 1) else s
  }

  function Entering(ch: Channel, a: Access): Channel {
    ch.(dram := ch.dram + multiset{a}, entered := ch.entered + multiset{a})
  }

  function CountIf(b: bool): nat { if b then 1 else 0 }

  predicate HoldExpired(k: Setup, ch: Channel, now: nat, full: Access -> bool) {
    k.pim.active && ch.hold != [] && ch.hold[0].release <= now && !full(ch.hold[0].access)
  }

  /** The front of the hold queue enters the DRAM once its deadline has passed. */
  function HoldDrained(k: Setup, s: System, c: nat, now: nat, full: Access -> bool): System
    requires c < |s.channels|
  {
    var ch := s.channels[c];
    if !HoldExpired(k, ch, now, full) then s
    else WithChannel(s, c, Entering(ch, ch.hold[0].access).(hold := ch.hold[1..]))
         .(issued := s.issued + CountIf(k.pim.IsPimChannel(c)))
  }

  function Moved(k: Setup, ch: Channel): nat {
    if |ch.ooo| >= k.entries then 0
    else if |ch.icnt| <= k.entries - |ch.ooo| then |ch.icnt|
    else k.entries - |ch.ooo|
  }

  /** The issue queue fills up from the interconnect. */
  function Refilled(k: Setup, s: System, c: nat): System
    requires c < |s.channels|
  {
    var ch := s.channels[c];
    if !k.pim.IsPimChannel(c) then s
    else WithChannel(s, c, ch.(ooo := ch.ooo + ch.icnt[..Moved(k, ch)], icnt := ch.icnt[Moved(k, ch)..]))
  }

  predicate FromQueue(k: Setup, ch: Channel, c: nat) {
    k.pim.IsPimChannel(c) && ch.ooo != []
  }

  predicate HasIncoming(k: Setup, ch: Channel, c: nat) {
    FromQueue(k, ch, c) || ch.icnt != []
  }

  function Incoming(k: Setup, ch: Channel, c: nat, full: Access -> bool): Access
    requires HasIncoming(k, ch, c)
  {
    if FromQueue(k, ch, c) then ch.ooo[Select(k.sched, ch.ooo, full)] else ch.icnt[0]
  }

  /** The channel without the access it issues. */
  function Taken(k: Setup, ch: Channel, c: nat, full: Access -> bool): Channel
    requires HasIncoming(k, ch, c)
  {
    if FromQueue(k, ch, c) then
      var i := Select(k.sched, ch.ooo, full);
      ch.(ooo := ch.ooo[..i] + ch.ooo[i + 1..], left := ch.left + [ch.ooo[i]])
    else ch.(icnt := ch.icnt[1..], left := ch.left + [ch.icnt[0]])
  }

  /** The selected access goes to exactly one of four places. */
  datatype Route = ToSsrc | ToAau | ToHold(cycles: nat) | ToDram

  function RouteOf(k: Setup, s: System, c: nat, a: Access, now: nat): Route
    requires Sized(k, s)
  {
    if TakesSsrc(k.pim, k.ssrc, s.ssrc, c, a) then ToSsrc
    else if TakesAau(k.pim, c, a) then ToAau
    else if Hold(k.pim, s.pim, c, now) > 0 then ToHold(Hold(k.pim, s.pim, c, now))
    else ToDram
  }

  function Landed(k: Setup, ch: Channel, a: Access, r: Route, now: nat): Channel {
    match r
    case ToSsrc => ch.(ssrc := ch.ssrc + [Held(now + k.pim.ssrcCycles, a)], bypassed := ch.bypassed + multiset{a})
    case ToAau => ch.(aau := ch.aau + [Held(now + k.pim.aauCycles, a)], bypassed := ch.bypassed + multiset{a})
    case ToHold(cycles) => ch.(hold := ch.hold + [Held(now + cycles, a)])
    case ToDram => Entering(ch, a)
  }

  /** The backend's books after it has decided the route. */
  function PimAfter(k: Setup, s: System, c: nat, a: Access, now: nat): (p: Pim)
    requires Sized(k, s)
    ensures p.holdUntil == s.pim.holdUntil && p.rankMode == s.pim.rankMode
  {
    var p := AfterSsrc(k.pim, k.ssrc, s.pim, s.ssrc, c, a);
    match RouteOf(k, s, c, a, now)
    case ToSsrc => p
    case ToAau => AfterAau(k.pim, p, c, a)
    case _ => AfterPush(k.pim, p, c, a, now)
  }

  function Issued(k: Setup, s: System, c: nat, now: nat, full: Access -> bool): System
    requires Sized(k, s) && c < |s.channels|
  {
    var ch := s.channels[c];
    if !HasIncoming(k, ch, c) || full(Incoming(k, ch, c, full)) then s
    else
      var a := Incoming(k, ch, c, full);
      var r := RouteOf(k, s, c, a, now);
      System(s.channels[c := Landed(k, Taken(k, ch, c, full), a, r, now)],
             PimAfter(k, s, c, a, now), SsrcAfter(k.pim, k.ssrc, s.ssrc, c, a),
             s.issued + CountIf(!r.ToHold? && k.pim.IsPimChannel(c)), s.slots)
  }

  /** The two bypass queues answer through the interconnect. */
  function BypassDrained(k: Setup, ch: Channel, now: nat, icntFull: Access -> bool): Channel {
    var ch1 := if k.pim.active && ch.aau != [] && ch.aau[0].release <= now && !icntFull(ch.aau[0].access)
               then ch.(responses := ch.responses + [ch.aau[0].access], aau := ch.aau[1..]) else ch;
    if k.pim.active && ch1.ssrc != [] && ch1.ssrc[0].release <= now && !icntFull(ch1.ssrc[0].access)
    then ch1.(responses := ch1.responses + [ch1.ssrc[0].access], ssrc := ch1.ssrc[1..]) else ch1
  }

  /** The DRAM answers with some access it holds, or with none. */
  function Answered(ch: Channel, top: Option<Access>, icntFull: Access -> bool): Channel {
    if top.Some? && top.value in ch.dram && !icntFull(top.value)
    then ch.(responses := ch.responses + [top.value], dram := ch.dram - multiset{top.value}) else ch
  }

  /** What the surroundings decide during one turn: which accesses the DRAM refuses before and after the hold
      queue has drained, which responses the interconnect refuses, and what the DRAM has ready. */
  datatype Surroundings = Surroundings(now: nat, fullFirst: Access -> bool, full: Access -> bool,
                                       icntFull: Access -> bool, top: Option<Access>)

  /** The turn as far as the choice of a command. */
  function AtIssue(k: Setup, s: System, c: nat, e: Surroundings): System
    requires c < |s.channels|
  {
    Refilled(k, HoldDrained(k, Noted(k, s, c), c, e.now, e.fullFirst), c)
  }

  function Turn(k: Setup, s: System, c: nat, e: Surroundings): System
    requires Sized(k, s) && c < |s.channels|
  {
    var s1 := AtIssue(k, s, c, e);
    var s2 := Issued(k, s1, c, e.now, e.full);
    WithChannel(s2, c, Answered(BypassDrained(k, s2.channels[c], e.now, e.icntFull), e.top, e.icntFull))
  }

  // What every turn keeps -----------------------------------------------------------------------------

  ghost function Bag(h: seq<Held>): multiset<Access> {
    if h == [] then multiset{} else multiset{h[0].access} + Bag(h[1..])
  }

  /** Every access that came in is in exactly one place, and a place behind the DRAM or behind a bypass holds
      only what entered it. */
  ghost predicate Flow(ch: Channel) {
    forall a :: Placed(ch, a, multiset{})
  }

  /** a is in as many places as it came in, up to the copies on their way between two queues. */
  ghost predicate Placed(ch: Channel, a: Access, moving: multiset<Access>) {
    && multiset(ch.arrivals)[a]
       == multiset(ch.icnt)[a] + multiset(ch.ooo)[a] + Bag(ch.hold)[a] + ch.entered[a] + ch.bypassed[a] + moving[a]
    && ch.entered[a] + ch.bypassed[a] == ch.dram[a] + Bag(ch.aau)[a] + Bag(ch.ssrc)[a] + multiset(ch.responses)[a]
    && ch.dram[a] <= ch.entered[a] && Bag(ch.aau)[a] + Bag(ch.ssrc)[a] <= ch.bypassed[a]
  }

  /** Flow with one access missing, on its way between two queues. */
  ghost predicate FlowWithout(ch: Channel, x: Access) {
    forall a :: Placed(ch, a, multiset{x})
  }

  /** Only PIM channels queue and hold, and the issue queue keeps its limit. */
  ghost predicate Limits(k: Setup, ch: Channel, c: nat) {
    |ch.ooo| <= k.entries && (!k.pim.IsPimChannel(c) ==> ch.hold == [] && ch.ooo == [])
  }

  /** The hold queue is sorted by release cycle, and no release lies beyond the channel's deadline. */
  ghost predicate Deadlines(ch: Channel, until: nat, now: nat) {
    && (forall i, j :: 0 <= i < j < |ch.hold| ==> ch.hold[i].release <= ch.hold[j].release)
    && (forall i :: 0 <= i < |ch.hold| ==> ch.hold[i].release <= until && ch.hold[i].release <= now + MAX_HOLD)
  }

  /** Draining only the front never leaves an expired access behind an unexpired one. */
  lemma FrontExpiresFirst(ch: Channel, until: nat, now: nat, i: nat)
    requires Deadlines(ch, until, now) && i < |ch.hold| && ch.hold[i].release <= now
    ensures ch.hold[0].release <= now
  {
    if i > 0 {
      assert ch.hold[0].release <= ch.hold[i].release;
    }
  }

  lemma {:induction false} BagAppend(h: seq<Held>, x: Held)
    ensures Bag(h + [x]) == Bag(h) + multiset{x.access}
  {
    if h == [] {
      assert h + [x] == [x] && [x][1..] == [];
    } else {
      assert (h + [x])[1..] == h[1..] + [x];
      BagAppend(h[1..], x);
    }
  }

  lemma RemoveAt(q: seq<Access>, i: nat)
    requires i < |q|
    ensures multiset(q) == multiset(q[..i] + q[i + 1..]) + multiset{q[i]}
  {
    assert q == q[..i] + [q[i]] + q[i + 1..];
  }

  lemma RemoveFirst(q: seq<Access>)
    requires q != []
    ensures multiset(q) == multiset(q[1..]) + multiset{q[0]}
  {
    assert q == [q[0]] + q[1..];
  }

  lemma RefilledFlow(ch: Channel, n: nat)
    requires Flow(ch) && n <= |ch.icnt|
    ensures Flow(ch.(ooo := ch.ooo + ch.icnt[..n], icnt := ch.icnt[n..]))
  {
    assert ch.icnt == ch.icnt[..n] + ch.icnt[n..];
    forall a
      ensures Placed(ch.(ooo := ch.ooo + ch.icnt[..n], icnt := ch.icnt[n..]), a, multiset{})
    {
      assert Placed(ch, a, multiset{});
    }
  }

  /** Taking the incoming access out leaves the rest in place. */
  lemma TakenFlow(k: Setup, ch: Channel, c: nat, full: Access -> bool)
    requires Flow(ch) && HasIncoming(k, ch, c)
    ensures FlowWithout(Taken(k, ch, c, full), Incoming(k, ch, c, full))
  {
    var ch', x := Taken(k, ch, c, full), Incoming(k, ch, c, full);
    assert ch' == ch.(icnt := ch'.icnt, ooo := ch'.ooo, left := ch'.left);
    if FromQueue(k, ch, c) {
      RemoveAt(ch.ooo, Select(k.sched, ch.ooo, full));
    } else {
      RemoveFirst(ch.icnt);
    }
    hide *;
    LeavingFlow(ch, ch', x);
  }

  lemma LeavingFlow(ch: Channel, ch': Channel, x: Access)
    requires Flow(ch) && ch' == ch.(icnt := ch'.icnt, ooo := ch'.ooo, left := ch'.left)
    requires (multiset(ch.ooo) == multiset(ch'.ooo) + multiset{x} && ch.icnt == ch'.icnt)
          || (multiset(ch.icnt) == multiset(ch'.icnt) + multiset{x} && ch.ooo == ch'.ooo)
    ensures FlowWithout(ch', x)
  {
    forall a
      ensures Placed(ch', a, multiset{x})
    {
      assert Placed(ch, a, multiset{});
    }
  }

  lemma EnteringFlow(ch: Channel, x: Access)
    requires FlowWithout(ch, x)
    ensures Flow(Entering(ch, x))
  {
    forall a
      ensures Placed(Entering(ch, x), a, multiset{})
    {
      assert Placed(ch, a, multiset{x});
    }
  }

  lemma SsrcFlow(ch: Channel, x: Access, release: nat)
    requires FlowWithout(ch, x)
    ensures Flow(ch.(ssrc := ch.ssrc + [Held(release, x)], bypassed := ch.bypassed + multiset{x}))
  {
    BagAppend(ch.ssrc, Held(release, x));
    forall a
      ensures Placed(ch.(ssrc := ch.ssrc + [Held(release, x)], bypassed := ch.bypassed + multiset{x}), a, multiset{})
    {
      assert Placed(ch, a, multiset{x});
    }
  }

  lemma AauFlow(ch: Channel, x: Access, release: nat)
    requires FlowWithout(ch, x)
    ensures Flow(ch.(aau := ch.aau + [Held(release, x)], bypassed := ch.bypassed + multiset{x}))
  {
    BagAppend(ch.aau, Held(release, x));
    forall a
      ensures Placed(ch.(aau := ch.aau + [Held(release, x)], bypassed := ch.bypassed + multiset{x}), a, multiset{})
    {
      assert Placed(ch, a, multiset{x});
    }
  }

  lemma HoldFlow(ch: Channel, x: Access, release: nat)
    requires FlowWithout(ch, x)
    ensures Flow(ch.(hold := ch.hold + [Held(release, x)]))
  {
    BagAppend(ch.hold, Held(release, x));
    forall a
      ensures Placed(ch.(hold := ch.hold + [Held(release, x)]), a, multiset{})
    {
      assert Placed(ch, a, multiset{x});
    }
  }

  lemma HoldDrainedFlow(ch: Channel)
    requires Flow(ch) && ch.hold != []
    ensures Flow(Entering(ch, ch.hold[0].access).(hold := ch.hold[1..]))
  {
    var x, rest := ch.hold[0].access, ch.(hold := ch.hold[1..]);
    forall a
      ensures Placed(rest, a, multiset{x})
    {
      assert Placed(ch, a, multiset{});
    }
    EnteringFlow(rest, x);
  }

  lemma BypassDrainedFlow(k: Setup, ch: Channel, now: nat, icntFull: Access -> bool)
    requires Flow(ch)
    ensures Flow(BypassDrained(k, ch, now, icntFull))
  {
    if k.pim.active && ch.aau != [] && ch.aau[0].release <= now && !icntFull(ch.aau[0].access) {
      AauAnswers(ch);
    }
    var ch1 := if k.pim.active && ch.aau != [] && ch.aau[0].release <= now && !icntFull(ch.aau[0].access)
               then ch.(responses := ch.responses + [ch.aau[0].access], aau := ch.aau[1..]) else ch;
    if k.pim.active && ch1.ssrc != [] && ch1.ssrc[0].release <= now && !icntFull(ch1.ssrc[0].access) {
      SsrcAnswers(ch1);
    }
    hide Flow;
  }

  lemma AauAnswers(ch: Channel)
    requires Flow(ch) && ch.aau != []
    ensures Flow(ch.(responses := ch.responses + [ch.aau[0].access], aau := ch.aau[1..]))
  {
    forall a
      ensures Placed(ch.(responses := ch.responses + [ch.aau[0].access], aau := ch.aau[1..]), a, multiset{})
    {
      assert Placed(ch, a, multiset{});
    }
  }

  lemma SsrcAnswers(ch: Channel)
    requires Flow(ch) && ch.ssrc != []
    ensures Flow(ch.(responses := ch.responses + [ch.ssrc[0].access], ssrc := ch.ssrc[1..]))
  {
    forall a
      ensures Placed(ch.(responses := ch.responses + [ch.ssrc[0].access], ssrc := ch.ssrc[1..]), a, multiset{})
    {
      assert Placed(ch, a, multiset{});
    }
  }

  lemma AnsweredFlow(ch: Channel, top: Option<Access>, icntFull: Access -> bool)
    requires Flow(ch)
    ensures Flow(Answered(ch, top, icntFull))
  {
    forall a
      ensures Placed(Answered(ch, top, icntFull), a, multiset{})
    {
      assert Placed(ch, a, multiset{});
    }
  }

  /** With distinct accesses, one that took a bypass never enters the DRAM, and nothing is in two places. */
  lemma ExactlyOnePlace(ch: Channel, a: Access)
    requires Flow(ch) && multiset(ch.arrivals)[a] == 1
    ensures multiset(ch.icnt)[a] + multiset(ch.ooo)[a] + Bag(ch.hold)[a] + ch.dram[a] + Bag(ch.aau)[a] + Bag(ch.ssrc)[a]
            + multiset(ch.responses)[a] == 1
    ensures a in ch.bypassed ==> a !in ch.entered
  {
    assert Placed(ch, a, multiset{});
  }

  // One turn keeps all of it --------------------------------------------------------------------------

  ghost predicate ChannelInv(k: Setup, ch: Channel, c: nat, until: nat, now: nat) {
    Flow(ch) && Limits(k, ch, c) && Deadlines(ch, until, now)
  }

  ghost function HeldTotal(chs: seq<Channel>): nat {
    if chs == [] then 0 else |chs[0].hold| + HeldTotal(chs[1..])
  }

  lemma {:induction false} HeldUpdate(chs: seq<Channel>, c: nat, ch: Channel)
    requires c < |chs|
    ensures HeldTotal(chs[c := ch]) + |chs[c].hold| == HeldTotal(chs) + |ch.hold|
  {
    if c == 0 {
      assert chs[c := ch][1..] == chs[1..];
    } else {
      assert chs[c := ch][1..] == chs[1..][c - 1 := ch];
      HeldUpdate(chs[1..], c - 1, ch);
    }
  }

  /** The counters: every PIM request is issued or still held, and is a read or a write; at most two commands
      are issued for each candidate slot; backend and coordinator agree on the bypassed writes. */
  ghost predicate Counts(s: System) {
    && s.issued + HeldTotal(s.channels) == s.pim.stats.total == s.pim.stats.readCount + s.pim.stats.writeCount
    && s.issued <= 2 * s.slots
    && s.pim.stats.ssrcRequests == s.ssrc.stats.bypassedWrites && s.pim.stats.ssrcBytes == s.ssrc.stats.bypassedBytes
  }

  ghost predicate Inv(k: Setup, s: System, now: nat) {
    && Sized(k, s) && Counts(s)
    && forall c :: 0 <= c < |s.channels| ==> ChannelInv(k, s.channels[c], c, s.pim.holdUntil[c], now)
  }

  /** The effect of a phase on the system: only channel c changes, and the counters move together. */
  ghost predicate Effect(s: System, t: System, c: nat)
    requires c < |s.channels|
  {
    && |t.channels| == |s.channels| && t.channels == s.channels[c := t.channels[c]]
    && t.pim.holdUntil == s.pim.holdUntil && t.pim.rankMode == s.pim.rankMode
    && t.issued + |t.channels[c].hold| - (s.issued + |s.channels[c].hold|) == t.pim.stats.total - s.pim.stats.total
    && t.pim.stats.total - s.pim.stats.total
       == t.pim.stats.readCount + t.pim.stats.writeCount - (s.pim.stats.readCount + s.pim.stats.writeCount)
    && t.pim.stats.ssrcRequests - s.pim.stats.ssrcRequests == t.ssrc.stats.bypassedWrites - s.ssrc.stats.bypassedWrites
    && t.pim.stats.ssrcBytes - s.pim.stats.ssrcBytes == t.ssrc.stats.bypassedBytes - s.ssrc.stats.bypassedBytes
  }

  lemma EffectChain(s: System, t: System, u: System, c: nat)
    requires c < |s.channels| && Effect(s, t, c) && Effect(t, u, c)
    ensures Effect(s, u, c)
  {
  }

  lemma HoldDrainedKeeps(k: Setup, s: System, c: nat, until: nat, now: nat, e: Surroundings)
    requires c < |s.channels| && ChannelInv(k, s.channels[c], c, until, now) && now <= e.now
    ensures var t := HoldDrained(k, s, c, e.now, e.fullFirst);
            && Effect(s, t, c) && ChannelInv(k, t.channels[c], c, until, e.now) && t.slots == s.slots
            && t.issued <= s.issued + CountIf(s.channels[c].hold != [] && k.pim.IsPimChannel(c))
            && t.channels[c].ooo == s.channels[c].ooo && t.channels[c].icnt == s.channels[c].icnt
  {
    var ch := s.channels[c];
    hide Flow;
    if HoldExpired(k, ch, e.now, e.fullFirst) {
      HoldDrainedFlow(ch);
    } else {
      assert s.channels == s.channels[c := ch];
    }
  }

  lemma RefilledKeeps(k: Setup, s: System, c: nat, until: nat, now: nat)
    requires c < |s.channels| && ChannelInv(k, s.channels[c], c, until, now)
    ensures var t := Refilled(k, s, c);
            && Effect(s, t, c) && ChannelInv(k, t.channels[c], c, until, now) && t.slots == s.slots
            && t.issued == s.issued
            && (k.pim.IsPimChannel(c) && s.channels[c].ooo == [] && s.channels[c].icnt == [] ==>
                  t.channels[c].ooo == [] && t.channels[c].icnt == [])
  {
    var ch := s.channels[c];
    RefilledFlow(ch, Moved(k, ch));
    hide Flow;
    if !k.pim.IsPimChannel(c) {
      assert s.channels == s.channels[c := ch];
    }
  }

  /** A newly held access queues up behind all earlier ones: both its bounds have only grown. */
  lemma HoldQueuesLast(ch: Channel, until: nat, now: nat, release: nat, a: Access)
    requires Deadlines(ch, until, now)
    requires release == if until < now + MAX_HOLD then until else now + MAX_HOLD
    ensures Deadlines(ch.(hold := ch.hold + [Held(release, a)]), until, now)
  {
  }

  lemma TakenFacts(k: Setup, ch: Channel, c: nat, until: nat, now: nat, full: Access -> bool)
    requires ChannelInv(k, ch, c, until, now) && HasIncoming(k, ch, c)
    ensures var ch' := Taken(k, ch, c, full);
            FlowWithout(ch', Incoming(k, ch, c, full)) && Limits(k, ch', c) && Deadlines(ch', until, now)
              && ch'.hold == ch.hold
  {
    TakenFlow(k, ch, c, full);
    hide Flow, FlowWithout;
  }

  lemma LandedKeeps(k: Setup, s: System, ch: Channel, c: nat, a: Access, now: nat)
    requires Sized(k, s) && c < |s.channels|
    requires FlowWithout(ch, a) && Limits(k, ch, c) && Deadlines(ch, s.pim.holdUntil[c], now)
    ensures ChannelInv(k, Landed(k, ch, a, RouteOf(k, s, c, a, now), now), c, s.pim.holdUntil[c], now)
  {
    hide Flow, FlowWithout, TakesSsrc, TakesAau;
    match RouteOf(k, s, c, a, now)
    case ToSsrc => SsrcFlow(ch, a, now + k.pim.ssrcCycles);
    case ToAau => AauFlow(ch, a, now + k.pim.aauCycles);
    case ToHold(cycles) =>
      HoldFlow(ch, a, now + cycles);
      HoldQueuesLast(ch, s.pim.holdUntil[c], now, now + cycles, a);
    case ToDram => EnteringFlow(ch, a);
  }

  /** The backend counts each PIM access once, whatever its route. */
  lemma CountedOnce(k: Setup, s: System, c: nat, a: Access, now: nat)
    requires Sized(k, s)
    ensures var p, one := PimAfter(k, s, c, a, now), CountIf(k.pim.IsPimChannel(c));
            && p.stats.total == s.pim.stats.total + one
            && p.stats.readCount + p.stats.writeCount == s.pim.stats.readCount + s.pim.stats.writeCount + one
    ensures var p, q := PimAfter(k, s, c, a, now), SsrcAfter(k.pim, k.ssrc, s.ssrc, c, a);
            && p.stats.ssrcRequests - s.pim.stats.ssrcRequests == q.stats.bypassedWrites - s.ssrc.stats.bypassedWrites
            && p.stats.ssrcBytes - s.pim.stats.ssrcBytes == q.stats.bypassedBytes - s.ssrc.stats.bypassedBytes
  {
  }

  lemma IssuedKeeps(k: Setup, s: System, c: nat, now: nat, full: Access -> bool)
    requires Sized(k, s) && c < |s.channels| && ChannelInv(k, s.channels[c], c, s.pim.holdUntil[c], now)
    ensures var t := Issued(k, s, c, now, full);
            && Effect(s, t, c) && ChannelInv(k, t.channels[c], c, s.pim.holdUntil[c], now) && t.slots == s.slots
            && t.issued <= s.issued + CountIf(k.pim.IsPimChannel(c) && HasIncoming(k, s.channels[c], c))
  {
    var ch := s.channels[c];
    if HasIncoming(k, ch, c) && !full(Incoming(k, ch, c, full)) {
      var a, ch' := Incoming(k, ch, c, full), Taken(k, ch, c, full);
      TakenFacts(k, ch, c, s.pim.holdUntil[c], now, full);
      LandedKeeps(k, s, ch', c, a, now);
      CountedOnce(k, s, c, a, now);
      HeldByRoute(k, s, ch', c, a, now);
      hide ChannelInv, FlowWithout, Limits, Deadlines, Taken, Incoming, Select, Landed, PimAfter, RouteOf, SsrcAfter;
    } else {
      assert s.channels == s.channels[c := ch];
    }
  }

  lemma HeldByRoute(k: Setup, s: System, ch: Channel, c: nat, a: Access, now: nat)
    requires Sized(k, s)
    ensures var r := RouteOf(k, s, c, a, now);
            && |Landed(k, ch, a, r, now).hold| == |ch.hold| + CountIf(r.ToHold?)
            && (r.ToHold? ==> k.pim.IsPimChannel(c))
  {
    hide TakesSsrc, TakesAau;
  }

  lemma DeadlinesLater(ch: Channel, until: nat, now: nat, until': nat, now': nat)
    requires Deadlines(ch, until, now) && until <= until' && now <= now'
    ensures Deadlines(ch, until', now')
  {
  }

  lemma TurnHasEffect(k: Setup, s: System, c: nat, now: nat, e: Surroundings)
    requires Sized(k, s) && c < |s.channels| && ChannelInv(k, s.channels[c], c, s.pim.holdUntil[c], now) && now <= e.now
    ensures var t := Turn(k, s, c, e);
            && Effect(s, t, c) && ChannelInv(k, t.channels[c], c, s.pim.holdUntil[c], e.now)
            && (s.issued <= 2 * s.slots ==> t.issued <= 2 * t.slots)
  {
    hide ChannelInv, HoldDrained, Refilled, Issued, BypassDrained, Answered;
    var until := s.pim.holdUntil[c];
    var s0 := Noted(k, s, c);
    assert Effect(s, s0, c);
    var s1 := HoldDrained(k, s0, c, e.now, e.fullFirst);
    HoldDrainedKeeps(k, s0, c, until, now, e);
    var s2 := Refilled(k, s1, c);
    RefilledKeeps(k, s1, c, until, e.now);
    var s3 := Issued(k, s2, c, e.now, e.full);
    assert s2.pim.holdUntil == s.pim.holdUntil;
    IssuedKeeps(k, s2, c, e.now, e.full);
    AnsweringKeeps(k, s3.channels[c], c, until, e);
    var s4 := Turn(k, s, c, e);
    assert Effect(s3, s4, c);
    if s.issued <= 2 * s.slots {
      TurnCounts(k, s, s1, s2, s3, c);
    }
    hide Effect, Turn, Noted;
    EffectChain(s, s0, s1, c);
    EffectChain(s, s1, s2, c);
    EffectChain(s, s2, s3, c);
    EffectChain(s, s3, s4, c);
  }

  /** One channel's turn keeps every invariant of the whole system. */
  lemma TurnKeeps(k: Setup, s: System, c: nat, now: nat, e: Surroundings)
    requires Inv(k, s, now) && c < |s.channels| && now <= e.now
    ensures Inv(k, Turn(k, s, c, e), e.now)
  {
    hide Turn, ChannelInv;
    assert ChannelInv(k, s.channels[c], c, s.pim.holdUntil[c], now);
    TurnHasEffect(k, s, c, now, e);
    var t := Turn(k, s, c, e);
    HeldUpdate(s.channels, c, t.channels[c]);
    forall i | 0 <= i < |t.channels|
      ensures ChannelInv(k, t.channels[i], i, t.pim.holdUntil[i], e.now)
    {
      if i != c {
        ChannelLater(k, s.channels[i], i, s.pim.holdUntil[i], now, s.pim.holdUntil[i], e.now);
      }
    }
  }

  lemma ChannelLater(k: Setup, ch: Channel, c: nat, until: nat, now: nat, until': nat, now': nat)
    requires ChannelInv(k, ch, c, until, now) && until <= until' && now <= now'
    ensures ChannelInv(k, ch, c, until', now')
  {
    hide Flow;
    DeadlinesLater(ch, until, now, until', now');
  }

  lemma AnsweringKeeps(k: Setup, ch: Channel, c: nat, until: nat, e: Surroundings)
    requires ChannelInv(k, ch, c, until, e.now)
    ensures var ch' := Answered(BypassDrained(k, ch, e.now, e.icntFull), e.top, e.icntFull);
            ChannelInv(k, ch', c, until, e.now) && ch'.hold == ch.hold
  {
    BypassDrainedFlow(k, ch, e.now, e.icntFull);
    AnsweredFlow(BypassDrained(k, ch, e.now, e.icntFull), e.top, e.icntFull);
    hide Flow;
  }

  /** At most one command from the hold queue and one from the issue queue, and none without a candidate. */
  lemma TurnCounts(k: Setup, s: System, s1: System, s2: System, s3: System, c: nat)
    requires c < |s.channels| == |s1.channels| == |s2.channels|
    requires var pimCh := k.pim.IsPimChannel(c);
             && s1.issued <= s.issued + CountIf(s.channels[c].hold != [] && pimCh)
             && s2.issued == s1.issued
             && s3.issued <= s2.issued + CountIf(pimCh && HasIncoming(k, s2.channels[c], c))
             && (pimCh ==> s1.channels[c].ooo == s.channels[c].ooo && s1.channels[c].icnt == s.channels[c].icnt)
             && (pimCh && s1.channels[c].ooo == [] && s1.channels[c].icnt == [] ==>
                   s2.channels[c].ooo == [] && s2.channels[c].icnt == [])
    requires s.issued <= 2 * s.slots
    ensures s3.issued <= 2 * Noted(k, s, c).slots
  {
  }

  /** A turn counts a slot exactly if its channel is a PIM channel on which anything waits, and nothing else does. */
  lemma SlotsCount(k: Setup, s: System, c: nat, e: Surroundings)
    requires Sized(k, s) && c < |s.channels|
    ensures var ch := s.channels[c];
            Turn(k, s, c, e).slots
              == s.slots + if k.pim.IsPimChannel(c) && |ch.hold| + |ch.ooo| + |ch.icnt| > 0 then 1 else 0
  {
    hide RouteOf, PimAfter, SsrcAfter, Landed, Taken, BypassDrained, Answered, HoldExpired, Entering, Moved;
  }

  // Scheduling, in terms of one turn ------------------------------------------------------------------

  lemma BeforeIssue(k: Setup, s: System, c: nat, e: Surroundings)
    requires Sized(k, s) && c < |s.channels|
    ensures var s1 := AtIssue(k, s, c, e);
            && Sized(k, s1) && s1.pim == s.pim && s1.ssrc == s.ssrc && s1.channels == s.channels[c := s1.channels[c]]
            && s1.channels[c].left == s.channels[c].left && s1.channels[c].arrivals == s.channels[c].arrivals
    ensures var ch, ch1 := s.channels[c], AtIssue(k, s, c, e).channels[c];
            if k.pim.IsPimChannel(c) then ch1.ooo == ch.ooo + ch.icnt[..Moved(k, ch)]
              && ch1.icnt == ch.icnt[Moved(k, ch)..]
            else ch1.ooo == ch.ooo && ch1.icnt == ch.icnt
  {
    assert s.channels == s.channels[c := s.channels[c]];
  }

  lemma AfterIssue(k: Setup, s: System, c: nat, e: Surroundings)
    requires Sized(k, s) && c < |s.channels| && Sized(k, AtIssue(k, s, c, e))
    requires AtIssue(k, s, c, e).channels == s.channels[c := AtIssue(k, s, c, e).channels[c]]
    ensures var s2, t := Issued(k, AtIssue(k, s, c, e), c, e.now, e.full), Turn(k, s, c, e);
            && |t.channels| == |s.channels| && t.channels == s.channels[c := t.channels[c]] && t.pim == s2.pim
            && t.channels[c].left == s2.channels[c].left && t.channels[c].arrivals == s2.channels[c].arrivals
            && t.channels[c].ooo == s2.channels[c].ooo && t.channels[c].icnt == s2.channels[c].icnt
            && t.channels[c].hold == s2.channels[c].hold
  {
    hide AtIssue, RouteOf, PimAfter, Taken, Incoming, HasIncoming, Landed, SsrcAfter;
  }

  /** What the phases around the issue leave alone. */
  lemma AroundIssue(k: Setup, s: System, c: nat, e: Surroundings)
    requires Sized(k, s) && c < |s.channels|
    ensures var s1 := AtIssue(k, s, c, e);
            && Sized(k, s1) && s1.pim == s.pim && s1.ssrc == s.ssrc && s1.channels == s.channels[c := s1.channels[c]]
            && s1.channels[c].left == s.channels[c].left && s1.channels[c].arrivals == s.channels[c].arrivals
    ensures var ch, ch1 := s.channels[c], AtIssue(k, s, c, e).channels[c];
            if k.pim.IsPimChannel(c) then ch1.ooo == ch.ooo + ch.icnt[..Moved(k, ch)]
              && ch1.icnt == ch.icnt[Moved(k, ch)..]
            else ch1.ooo == ch.ooo && ch1.icnt == ch.icnt
    ensures var s2, t := Issued(k, AtIssue(k, s, c, e), c, e.now, e.full), Turn(k, s, c, e);
            && |t.channels| == |s.channels| && t.channels == s.channels[c := t.channels[c]] && t.pim == s2.pim
            && t.channels[c].left == s2.channels[c].left && t.channels[c].arrivals == s2.channels[c].arrivals
            && t.channels[c].ooo == s2.channels[c].ooo && t.channels[c].icnt == s2.channels[c].icnt
            && t.channels[c].hold == s2.channels[c].hold
  {
    BeforeIssue(k, s, c, e);
    AfterIssue(k, s, c, e);
    hide *;
  }

  lemma IssueMoves(k: Setup, s: System, c: nat, now: nat, full: Access -> bool)
    requires Sized(k, s) && c < |s.channels|
    ensures var ch, ch' := s.channels[c], Issued(k, s, c, now, full).channels[c];
            if HasIncoming(k, ch, c) && !full(Incoming(k, ch, c, full)) then
              var rest := Taken(k, ch, c, full);
              ch'.ooo == rest.ooo && ch'.icnt == rest.icnt && ch'.left == rest.left && ch'.arrivals == rest.arrivals
            else ch' == ch
  {
    hide RouteOf, PimAfter, Taken, Incoming, HasIncoming, SsrcAfter;
  }

  /** With the scheduler on, if the DRAM accepts any command that is queued, or comes in from the interconnect in
      this turn, then one leaves in this very turn: the oldest acceptable read of the target model if there is
      one, else the oldest acceptable command; the rest keep their order. */
  lemma SchedulerIssues(k: Setup, s: System, c: nat, e: Surroundings)
    requires Sized(k, s) && c < |s.channels| && k.sched && k.pim.IsPimChannel(c)
    requires var ch := s.channels[c];
             exists a :: a in ch.ooo + ch.icnt[..Moved(k, ch)] && !e.full(a)
    ensures var ch, ch' := s.channels[c], Turn(k, s, c, e).channels[c];
            var q := ch.ooo + ch.icnt[..Moved(k, ch)];
            exists i :: 0 <= i < |q| && !e.full(q[i])
              && ch'.left == ch.left + [q[i]] && ch'.ooo == q[..i] + q[i + 1..] && ch'.icnt == ch.icnt[Moved(k, ch)..]
              && if exists j :: 0 <= j < |q| && IsTlmRead(q[j]) && !e.full(q[j])
                 then IsTlmRead(q[i]) && forall j :: 0 <= j < i ==> !(IsTlmRead(q[j]) && !e.full(q[j]))
                 else forall j :: 0 <= j < i ==> e.full(q[j])
  {
    hide RouteOf, PimAfter, Turn, AtIssue, Issued, Select;
    AroundIssue(k, s, c, e);
    var s1 := AtIssue(k, s, c, e);
    IssueMoves(k, s1, c, e.now, e.full);
    var q := s1.channels[c].ooo;
    SelectionPolicy(true, q, e.full);
    var i := Select(true, q, e.full);
    assert 0 <= i < |q| && !e.full(q[i]);
  }

  /** With it off, the oldest command leaves if the DRAM accepts it, and no other does. */
  lemma FifoIssues(k: Setup, s: System, c: nat, e: Surroundings)
    requires Sized(k, s) && c < |s.channels| && !k.sched && k.pim.IsPimChannel(c)
    ensures var ch, ch' := s.channels[c], Turn(k, s, c, e).channels[c];
            var q := ch.ooo + ch.icnt[..Moved(k, ch)];
            if q != [] && !e.full(q[0]) then ch'.left == ch.left + [q[0]] && ch'.ooo == q[1..]
            else if q != [] then ch'.left == ch.left && ch'.ooo == q
            else ch'.ooo == []
  {
    hide RouteOf, PimAfter, Turn, AtIssue, Issued;
    AroundIssue(k, s, c, e);
    var s1 := AtIssue(k, s, c, e);
    IssueMoves(k, s1, c, e.now, e.full);
    var q := s1.channels[c].ooo;
    if q != [] {
      assert q[..0] + q[1..] == q[1..];
    }
  }

  // Whole runs ----------------------------------------------------------------------------------------

  datatype Action =
    | Arrive(c: nat, a: Access)
    | ChannelTurn(c: nat, e: Surroundings)
    | SwitchOne(c: nat, mode: nat)
    | SwitchAll(mode: nat)
    | HoldOne(c: nat, until: nat)
    | HoldAll(until: nat)
    | Coordinate(round: Ssrc.Event)

  /** Actions carry the core cycle they happen in; a turn's surroundings carry the same one. */
  datatype Event = At(now: nat, action: Action)

  predicate Possible(s: System, now: nat, e: Event) {
    && now <= e.now
    && (e.action.Arrive? ==> e.action.c < |s.channels|)
    && (e.action.ChannelTurn? ==> e.action.c < |s.channels| && e.action.e.now == e.now)
    && (e.action.Coordinate? ==> !e.action.round.Note?)  // only the backend notes bypassed writes
  }

  function Coordinated(k: Setup, s: Ssrc.State, r: Ssrc.Event): Ssrc.State {
    match r
    case Defer(id, specRound, planned, hint) => Ssrc.Deferred(k.ssrc, s, id, specRound, planned, hint)
    case Verify(id, specRound, accepted, length) => Ssrc.Verified(k.ssrc, s, id, specRound, accepted, length)
    case Abort(id) => Ssrc.Aborted(k.ssrc, s, id)
    case Note(id, bytes) => Ssrc.Noted(k.ssrc, s, id, bytes)
  }

  ghost function Step(k: Setup, s: System, e: Event): System
    requires Sized(k, s) && Possible(s, 0, e)
  {
    match e.action
    case Arrive(c, a) =>
      var ch := s.channels[c];
      WithChannel(s, c, ch.(icnt := ch.icnt + [a], arrivals := ch.arrivals + [a]))
    case ChannelTurn(c, env) => Turn(k, s, c, env)
    case SwitchOne(c, mode) => s.(pim := Switched(k.pim, s.pim, c, mode, e.now))
    case SwitchAll(mode) => s.(pim := if k.pim.active then SwitchedFrom(k.pim, s.pim, mode, e.now, 0) else s.pim)
    case HoldOne(c, until) => s.(pim := Scheduled(k.pim, s.pim, c, until))
    case HoldAll(until) => s.(pim := if k.pim.active then ScheduledFrom(k.pim, s.pim, until, 0) else s.pim)
    case Coordinate(r) => s.(ssrc := Coordinated(k, s.ssrc, r))
  }

  lemma ArriveKeeps(k: Setup, s: System, c: nat, a: Access, now: nat, now': nat)
    requires Inv(k, s, now) && c < |s.channels| && now <= now'
    ensures var ch := s.channels[c];
            Inv(k, WithChannel(s, c, ch.(icnt := ch.icnt + [a], arrivals := ch.arrivals + [a])), now')
  {
    var ch := s.channels[c];
    var ch' := ch.(icnt := ch.icnt + [a], arrivals := ch.arrivals + [a]);
    HeldUpdate(s.channels, c, ch');
    ArriveFlow(ch, a);
    hide Flow, Deadlines, HeldTotal;
    forall i | 0 <= i < |s.channels|
      ensures ChannelInv(k, s.channels[c := ch'][i], i, s.pim.holdUntil[i], now')
    {
      ChannelLater(k, s.channels[i], i, s.pim.holdUntil[i], now, s.pim.holdUntil[i], now');
      if i == c {
        SameHold(ch, ch', s.pim.holdUntil[i], now');
      }
    }
  }

  lemma SameHold(ch: Channel, ch': Channel, until: nat, now: nat)
    requires Deadlines(ch, until, now) && ch'.hold == ch.hold
    ensures Deadlines(ch', until, now)
  {
  }

  lemma ArriveFlow(ch: Channel, a: Access)
    requires Flow(ch)
    ensures Flow(ch.(icnt := ch.icnt + [a], arrivals := ch.arrivals + [a]))
  {
    var ch' := ch.(icnt := ch.icnt + [a], arrivals := ch.arrivals + [a]);
    forall x
      ensures Placed(ch', x, multiset{})
    {
      assert Placed(ch, x, multiset{});
    }
  }

  /** Deadlines that move on, and counters the invariant does not speak of, change nothing. */
  lemma PimKeeps(k: Setup, s: System, p: Pim, now: nat, now': nat)
    requires Inv(k, s, now) && now <= now' && p.Valid(k.pim) && Later(s.pim, p)
    requires p.stats.total == s.pim.stats.total
    requires p.stats.readCount == s.pim.stats.readCount && p.stats.writeCount == s.pim.stats.writeCount
    requires p.stats.ssrcRequests == s.pim.stats.ssrcRequests && p.stats.ssrcBytes == s.pim.stats.ssrcBytes
    ensures Inv(k, s.(pim := p), now')
  {
    hide ChannelInv;
    forall i | 0 <= i < |s.channels|
      ensures ChannelInv(k, s.channels[i], i, p.holdUntil[i], now')
    {
      ChannelLater(k, s.channels[i], i, s.pim.holdUntil[i], now, p.holdUntil[i], now');
    }
  }

  lemma CoordinateKeeps(k: Setup, s: System, r: Ssrc.Event, now: nat, now': nat)
    requires Inv(k, s, now) && now <= now' && !r.Note?
    ensures Inv(k, s.(ssrc := Coordinated(k, s.ssrc, r)), now')
  {
    hide ChannelInv;
    PimKeeps(k, s, s.pim, now, now');
  }

  lemma StepKeeps(k: Setup, s: System, now: nat, e: Event)
    requires Inv(k, s, now) && Possible(s, now, e)
    ensures Inv(k, Step(k, s, e), e.now)
  {
    hide ChannelInv, Turn, Counts;
    match e.action
    case Arrive(c, a) => ArriveKeeps(k, s, c, a, now, e.now);
    case ChannelTurn(c, env) => TurnKeeps(k, s, c, now, env);
    case SwitchOne(c, mode) => PimKeeps(k, s, Switched(k.pim, s.pim, c, mode, e.now), now, e.now);
    case SwitchAll(mode) =>
      if k.pim.active {
        SwitchAllFacts(k.pim, s.pim, mode, e.now, 0);
      }
      PimKeeps(k, s, Step(k, s, e).pim, now, e.now);
    case HoldOne(c, until) => PimKeeps(k, s, Scheduled(k.pim, s.pim, c, until), now, e.now);
    case HoldAll(until) =>
      if k.pim.active {
        ScheduleAllFacts(k.pim, s.pim, until, 0);
      }
      PimKeeps(k, s, Step(k, s, e).pim, now, e.now);
    case Coordinate(r) => CoordinateKeeps(k, s, r, now, e.now);
  }

  /** t is where the events lead from s, in order of time. */
  ghost predicate Runs(k: Setup, s: System, now: nat, es: seq<Event>, t: System, end: nat)
    decreases |es|
  {
    if es == [] then t == s && end == now
    else Sized(k, s) && Possible(s, now, es[0]) && Runs(k, Step(k, s, es[0]), es[0].now, es[1..], t, end)
  }

  ghost function Start(k: Setup): System {
    var n := |k.pim.isPim|;
    System(seq(n, i => EMPTY),
           Pim(seq(n, i => 0), seq(n, i => 0), Stats(0, 0, 0, 0, 0, 0, 0, 0, 0, 0, 0, 0, 0, 0, 0, 0)),
           Ssrc.INITIAL, 0, 0)
  }

  /** Every reachable state keeps every request in one place, the counters in step, the issue queues within
      their limit, the hold queues sorted within their deadlines, and the two bypass books equal. */
  lemma EveryRunKeeps(k: Setup, es: seq<Event>, t: System, end: nat)
    requires Runs(k, Start(k), 0, es, t, end)
    ensures Inv(k, t, end)
  {
    StartKeeps(k);
    RunKeeps(k, Start(k), 0, es, t, end);
  }

  lemma {:induction false} RunKeeps(k: Setup, s: System, now: nat, es: seq<Event>, t: System, end: nat)
    requires Inv(k, s, now) && Runs(k, s, now, es, t, end)
    ensures Inv(k, t, end)
    decreases |es|
  {
    if es != [] {
      hide Inv, Step, Possible;
      StepKeeps(k, s, now, es[0]);
      RunKeeps(k, Step(k, s, es[0]), es[0].now, es[1..], t, end);
    }
  }

  lemma StartKeeps(k: Setup)
    ensures Inv(k, Start(k), 0)
  {
    NothingHeld(|k.pim.isPim|);
  }

  lemma {:induction false} NothingHeld(n: nat)
    ensures HeldTotal(seq(n, i => EMPTY)) == 0
  {
    if n > 0 {
      assert seq(n, i => EMPTY)[1..] == seq(n - 1, i => EMPTY);
      NothingHeld(n - 1);
    }
  }

  // Order over whole runs -----------------------------------------------------------------------------

  /** What left, and what still waits, in the order it came in. */
  ghost predicate InOrder(ch: Channel) {
    ch.left + ch.ooo + ch.icnt == ch.arrivals
  }

  lemma RefilledInOrder(k: Setup, ch: Channel, ch1: Channel, c: nat)
    requires InOrder(ch) && ch1.left == ch.left && ch1.arrivals == ch.arrivals
    requires if k.pim.IsPimChannel(c) then ch1.ooo == ch.ooo + ch.icnt[..Moved(k, ch)]
             && ch1.icnt == ch.icnt[Moved(k, ch)..]
             else ch1.ooo == ch.ooo && ch1.icnt == ch.icnt
    ensures InOrder(ch1)
  {
    assert ch.icnt == ch.icnt[..Moved(k, ch)] + ch.icnt[Moved(k, ch)..];
    Associate(ch.left, ch.ooo, ch.icnt[..Moved(k, ch)], ch.icnt[Moved(k, ch)..]);
  }

  lemma Associate(a: seq<Access>, b: seq<Access>, c: seq<Access>, d: seq<Access>)
    ensures a + b + (c + d) == a + (b + c) + d
  {
  }

  lemma HeadMoves(left: seq<Access>, head: Access, q: seq<Access>, rest: seq<Access>)
    ensures left + ([head] + q) + rest == (left + [head]) + q + rest
    ensures left + [] + ([head] + rest) == (left + [head]) + [] + rest
  {
  }

  lemma TakenInOrder(k: Setup, ch: Channel, c: nat, full: Access -> bool)
    requires InOrder(ch) && HasIncoming(k, ch, c) && (if k.pim.IsPimChannel(c) then !k.sched else ch.ooo == [])
    ensures InOrder(Taken(k, ch, c, full))
  {
    if FromQueue(k, ch, c) {
      assert ch.ooo == [ch.ooo[0]] + ch.ooo[1..] && ch.ooo[..0] + ch.ooo[1..] == ch.ooo[1..];
      HeadMoves(ch.left, ch.ooo[0], ch.ooo[1..], ch.icnt);
    } else {
      assert ch.icnt == [ch.icnt[0]] + ch.icnt[1..];
      HeadMoves(ch.left, ch.icnt[0], [], ch.icnt[1..]);
    }
  }

  lemma TurnInOrder(k: Setup, s: System, c: nat, e: Surroundings)
    requires Sized(k, s) && c < |s.channels| && InOrder(s.channels[c])
    requires if k.pim.IsPimChannel(c) then !k.sched else s.channels[c].ooo == []
    ensures InOrder(Turn(k, s, c, e).channels[c])
  {
    hide RouteOf, PimAfter, Turn, AtIssue, Issued, Taken, HasIncoming, Incoming;
    AroundIssue(k, s, c, e);
    var s1 := AtIssue(k, s, c, e);
    RefilledInOrder(k, s.channels[c], s1.channels[c], c);
    IssueMoves(k, s1, c, e.now, e.full);
    if HasIncoming(k, s1.channels[c], c) && !e.full(Incoming(k, s1.channels[c], c, e.full)) {
      TakenInOrder(k, s1.channels[c], c, e.full);
    }
  }

  lemma StepInOrder(k: Setup, s: System, now: nat, e: Event, c: nat)
    requires Inv(k, s, now) && Possible(s, now, e) && c < |s.channels| && InOrder(s.channels[c])
    requires k.pim.IsPimChannel(c) ==> !k.sched
    ensures InOrder(Step(k, s, e).channels[c])
  {
    hide Turn, Counts;
    assert ChannelInv(k, s.channels[c], c, s.pim.holdUntil[c], now);
    hide ChannelInv;
    match e.action
    case Arrive(d, a) =>
      if d == c {
        var ch := s.channels[c];
        assert (ch.left + ch.ooo + ch.icnt) + [a] == ch.left + ch.ooo + (ch.icnt + [a]);
      }
    case ChannelTurn(d, env) =>
      AroundIssue(k, s, d, env);
      if d == c {
        OnlyPimQueues(k, s.channels[c], c, s.pim.holdUntil[c], now);
        TurnInOrder(k, s, c, env);
      }
    case _ =>
  }

  lemma OnlyPimQueues(k: Setup, ch: Channel, c: nat, until: nat, now: nat)
    requires ChannelInv(k, ch, c, until, now)
    ensures !k.pim.IsPimChannel(c) ==> ch.ooo == []
  {
  }

  /** With the scheduler off, and in channels outside the PIM ranks in any case, commands leave in the order they
      came in: over every run, what left and what still waits is what came in. */
  lemma LeavesInOrder(k: Setup, es: seq<Event>, t: System, end: nat, c: nat)
    requires Runs(k, Start(k), 0, es, t, end) && c < |k.pim.isPim| && (k.pim.IsPimChannel(c) ==> !k.sched)
    ensures c < |t.channels| && t.channels[c].left + t.channels[c].ooo + t.channels[c].icnt == t.channels[c].arrivals
  {
    StartKeeps(k);
    hide Runs, Inv;
    RunInOrder(k, Start(k), 0, es, t, end, c);
  }

  lemma {:induction false} RunInOrder(k: Setup, s: System, now: nat, es: seq<Event>, t: System, end: nat, c: nat)
    requires Inv(k, s, now) && Runs(k, s, now, es, t, end) && c < |k.pim.isPim|
    requires InOrder(s.channels[c]) && (k.pim.IsPimChannel(c) ==> !k.sched)
    ensures c < |t.channels| && InOrder(t.channels[c])
    decreases |es|
  {
    InvSized(k, s, now);
    hide Inv, InOrder, Step, Possible;
    if es != [] {
      StepKeeps(k, s, now, es[0]);
      InvSized(k, Step(k, s, es[0]), es[0].now);
      StepInOrder(k, s, now, es[0], c);
      RunInOrder(k, Step(k, s, es[0]), es[0].now, es[1..], t, end, c);
    }
  }

  lemma InvSized(k: Setup, s: System, now: nat)
    requires Inv(k, s, now)
    ensures Sized(k, s)
  {
    hide ChannelInv, Counts;
  }

  // Holds over whole runs -----------------------------------------------------------------------------

  lemma StepLater(k: Setup, s: System, e: Event)
    requires Sized(k, s) && Possible(s, 0, e)
    ensures Later(s.pim, Step(k, s, e).pim)
  {
    hide Turn;
    match e.action
    case ChannelTurn(c, env) =>
      AroundIssue(k, s, c, env);
      IssuedPim(k, AtIssue(k, s, c, env), c, env.now, env.full);
    case SwitchAll(mode) =>
      if k.pim.active {
        SwitchAllFacts(k.pim, s.pim, mode, e.now, 0);
      }
    case HoldAll(until) =>
      if k.pim.active {
        ScheduleAllFacts(k.pim, s.pim, until, 0);
      }
    case _ =>
  }

  lemma IssuedPim(k: Setup, s: System, c: nat, now: nat, full: Access -> bool)
    requires Sized(k, s) && c < |s.channels|
    ensures Issued(k, s, c, now, full).pim.holdUntil == s.pim.holdUntil
  {
    hide RouteOf, Taken, Incoming, HasIncoming, Landed, SsrcAfter;
  }

  /** Over every run no channel's deadline moves back, and time passes. */
  lemma {:induction false} RunLater(k: Setup, s: System, now: nat, es: seq<Event>, t: System, end: nat)
    requires Runs(k, s, now, es, t, end)
    ensures Later(s.pim, t.pim) && now <= end
    decreases |es|
  {
    hide Step;
    if es != [] {
      StepLater(k, s, es[0]);
      RunLater(k, Step(k, s, es[0]), es[0].now, es[1..], t, end);
    }
  }

  lemma TurnHolds(k: Setup, s: System, c: nat, e: Surroundings, x: Held)
    requires Sized(k, s) && c < |s.channels| && x in s.channels[c].hold && x.release > e.now
    ensures x in Turn(k, s, c, e).channels[c].hold
  {
    AroundIssue(k, s, c, e);
    DrainedHolds(k, Noted(k, s, c), c, e, x);
    var s1 := AtIssue(k, s, c, e);
    hide Turn, AtIssue, HoldDrained, Noted;
    IssuedHolds(k, s1, c, e.now, e.full, x);
  }

  lemma DrainedHolds(k: Setup, s: System, c: nat, e: Surroundings, x: Held)
    requires c < |s.channels| && x in s.channels[c].hold && x.release > e.now
    ensures x in Refilled(k, HoldDrained(k, s, c, e.now, e.fullFirst), c).channels[c].hold
  {
    if HoldExpired(k, s.channels[c], e.now, e.fullFirst) {
      var n :| 0 <= n < |s.channels[c].hold| && s.channels[c].hold[n] == x;
      assert s.channels[c].hold[1..][n - 1] == x;
    }
  }

  lemma IssuedHolds(k: Setup, s: System, c: nat, now: nat, full: Access -> bool, x: Held)
    requires Sized(k, s) && c < |s.channels| && x in s.channels[c].hold
    ensures x in Issued(k, s, c, now, full).channels[c].hold
  {
    hide RouteOf, PimAfter, Select, SsrcAfter;
  }

  lemma StepHolds(k: Setup, s: System, e: Event, c: nat, x: Held)
    requires Sized(k, s) && Possible(s, 0, e) && c < |s.channels| && x in s.channels[c].hold && x.release > e.now
    ensures var t := Step(k, s, e); c < |t.channels| && x in t.channels[c].hold
  {
    hide Turn;
    if e.action.ChannelTurn? {
      AroundIssue(k, s, e.action.c, e.action.e);
      if e.action.c == c {
        TurnHolds(k, s, c, e.action.e, x);
      }
    }
  }

  /** Over every run, nothing leaves a hold queue before its release cycle. */
  lemma {:induction false} StaysHeld(k: Setup, s: System, now: nat, es: seq<Event>, t: System, end: nat, c: nat,
                                     x: Held)
    requires Runs(k, s, now, es, t, end) && c < |s.channels| && x in s.channels[c].hold && x.release > end
    ensures c < |t.channels| && x in t.channels[c].hold
    decreases |es|
  {
    hide Step;
    if es != [] {
      RunLater(k, Step(k, s, es[0]), es[0].now, es[1..], t, end);
      StepHolds(k, s, es[0], c, x);
      StaysHeld(k, Step(k, s, es[0]), es[0].now, es[1..], t, end, c, x);
    }
  }

  /** The release cycle of a request that is held from cycle now on: the channel's deadline at that moment, or
      2^32 - 1 cycles later if that comes first. */
  function Release(until: nat, now: nat): nat {
    if until < now + MAX_HOLD then until else now + MAX_HOLD
  }

  /** The turn decides to hold what it issues. */
  ghost predicate HoldsBack(k: Setup, s: System, c: nat, e: Surroundings, a: Access)
    requires Sized(k, s) && c < |s.channels|
  {
    AroundIssue(k, s, c, e);
    var s1 := AtIssue(k, s, c, e);
    && HasIncoming(k, s1.channels[c], c) && a == Incoming(k, s1.channels[c], c, e.full) && !e.full(a)
    && RouteOf(k, s1, c, a, e.now).ToHold?
  }

  lemma IssueHoldsBack(k: Setup, s: System, c: nat, now: nat, full: Access -> bool)
    requires Sized(k, s) && c < |s.channels| && HasIncoming(k, s.channels[c], c)
    requires var a := Incoming(k, s.channels[c], c, full); !full(a) && RouteOf(k, s, c, a, now).ToHold?
    ensures Held(Release(s.pim.holdUntil[c], now), Incoming(k, s.channels[c], c, full))
         in Issued(k, s, c, now, full).channels[c].hold
  {
    hide PimAfter, Taken, Incoming, HasIncoming, SsrcAfter, TakesSsrc, TakesAau;
  }

  lemma HeldOnTurn(k: Setup, s: System, c: nat, e: Surroundings, a: Access)
    requires Sized(k, s) && c < |s.channels| && HoldsBack(k, s, c, e, a)
    ensures Held(Release(s.pim.holdUntil[c], e.now), a) in Turn(k, s, c, e).channels[c].hold
  {
    hide Turn, AtIssue, Issued, Incoming, HasIncoming, RouteOf, Release;
    AroundIssue(k, s, c, e);
    IssueHoldsBack(k, AtIssue(k, s, c, e), c, e.now, e.full);
  }

  /** Over every run: a request that a turn holds back stays in the hold queue, and out of the DRAM and the
      responses, until its release cycle. That is never before the channel's deadline at the moment it was
      queued, exactly when the hold fits 32 bits. */
  lemma HeldUntilDeadline(k: Setup, es: seq<Event>, s: System, now: nat, c: nat, e: Surroundings, a: Access,
                          more: seq<Event>, t: System, end: nat)
    requires Runs(k, Start(k), 0, es, s, now) && Possible(s, now, At(e.now, ChannelTurn(c, e))) && Sized(k, s)
    requires HoldsBack(k, s, c, e, a) && Runs(k, Turn(k, s, c, e), e.now, more, t, end)
    ensures var until := s.pim.holdUntil[c];
            var release := Release(until, e.now);
            && (release >= until <==> until - e.now <= MAX_HOLD)
            && (end < release ==>
                  && c < |t.channels| && Held(release, a) in t.channels[c].hold
                  && (multiset(t.channels[c].arrivals)[a] == 1 ==>
                        a !in t.channels[c].entered && a !in t.channels[c].bypassed && a !in t.channels[c].responses))
  {
    var release := Release(s.pim.holdUntil[c], e.now);
    HeldOnTurn(k, s, c, e, a);
    EveryRunKeeps(k, es, s, now);
    TurnKeeps(k, s, c, now, e);
    RunKeeps(k, Turn(k, s, c, e), e.now, more, t, end);
    hide Turn, HoldsBack, Runs;
    if end < release {
      AroundIssue(k, s, c, e);
      StaysHeld(k, Turn(k, s, c, e), e.now, more, t, end, c, Held(release, a));
      assert ChannelInv(k, t.channels[c], c, t.pim.holdUntil[c], end);
      hide Inv;
      if multiset(t.channels[c].arrivals)[a] == 1 {
        InBag(t.channels[c].hold, Held(release, a));
        HeldIsNowhereElse(t.channels[c], a);
      }
    }
  }

  lemma {:induction false} InBag(h: seq<Held>, x: Held)
    requires x in h
    ensures Bag(h)[x.access] >= 1
  {
    if h[0] != x {
      InBag(h[1..], x);
    }
  }

  lemma HeldIsNowhereElse(ch: Channel, a: Access)
    requires Flow(ch) && multiset(ch.arrivals)[a] == 1 && Bag(ch.hold)[a] >= 1
    ensures a !in ch.entered && a !in ch.bypassed && a !in ch.responses
  {
    assert Placed(ch, a, multiset{});
  }

  // The simulator's side ------------------------------------------------------------------------------

  class MemoryChannels {
    const k: Setup
    const pim: PIMBackend
    var channels: seq<Channel>
    var issuedCommands: nat
    var candidateSlots: nat

    ghost function State(): System
      reads this, pim, pim.ssrc
    {
      System(channels, pim.Now(), pim.ssrc.Now(), issuedCommands, candidateSlots)
    }

    ghost predicate Wired()
      reads this, pim, pim.ssrc
    {
      pim.cfg == k.pim && pim.ssrc.cfg == k.ssrc && Sized(k, State())
    }

    constructor (k: Setup, pim: PIMBackend)
      requires pim.cfg == k.pim && pim.ssrc.cfg == k.ssrc && pim.Now().Valid(k.pim)
      ensures this.k == k && this.pim == pim && Wired()
      ensures State() == System(seq(|k.pim.isPim|, i => EMPTY), pim.Now(), pim.ssrc.Now(), 0, 0)
    {
      this.k, this.pim := k, pim;
      channels, issuedCommands, candidateSlots := seq(|k.pim.isPim|, i => EMPTY), 0, 0;
    }

    method SelectPimCommand(c: nat, full: Access -> bool) returns (i: nat)
      requires Wired() && c < |channels| && channels[c].ooo != []
      ensures i == Select(k.sched, channels[c].ooo, full)
    {
      var queue := channels[c].ooo;
      if !k.sched { return 0; }
      i := 0;
      while i < |queue| && !(IsTlmRead(queue[i]) && !full(queue[i]))
        invariant i <= |queue| && First(queue, full, true, true, 0) == First(queue, full, true, true, i)
      {
        i := i + 1;
      }
      if i < |queue| { return; }
      i := 0;
      while i < |queue| && full(queue[i])
        invariant i <= |queue| && First(queue, full, false, true, 0) == First(queue, full, false, true, i)
      {
        i := i + 1;
      }
      if i < |queue| { return; }
      i := 0;
      while i < |queue| && !IsTlmRead(queue[i])
        invariant i <= |queue| && First(queue, full, true, false, 0) == First(queue, full, true, false, i)
      {
        i := i + 1;
      }
      if i < |queue| { return; }
      return 0;
    }

    method DrainHold(c: nat, now: nat, full: Access -> bool)
      requires Wired() && c < |channels|
      modifies this
      ensures Wired() && State() == HoldDrained(k, Noted(k, old(State()), c), c, now, full)
    {
      var ch := channels[c];
      if k.pim.IsPimChannel(c) && (ch.hold != [] || ch.ooo != [] || ch.icnt != []) {
        candidateSlots := candidateSlots + 1;
      }
      if k.pim.active && ch.hold != [] {
        var front := ch.hold[0];
        if front.release <= now && !full(front.access) {
          channels := channels[c := Entering(ch, front.access).(hold := ch.hold[1..])];
          if k.pim.IsPimChannel(c) {
            issuedCommands := issuedCommands + 1;
          }
        }
      }
    }

    method Refill(c: nat)
      requires Wired() && c < |channels|
      modifies this
      ensures Wired() && State() == Refilled(k, old(State()), c)
    {
      if !k.pim.IsPimChannel(c) { return; }
      var ch := channels[c];
      var icnt, ooo := ch.icnt, ch.ooo;
      ghost var n := 0;
      while icnt != [] && |ooo| < k.entries
        invariant n <= Moved(k, ch) && icnt == ch.icnt[n..] && ooo == ch.ooo + ch.icnt[..n]
        decreases |icnt|
      {
        ooo := ooo + [icnt[0]];
        icnt := icnt[1..];
        n := n + 1;
      }
      channels := channels[c := ch.(ooo := ooo, icnt := icnt)];
    }

    /** Asks the two bypasses, then the channel itself, where the access goes. */
    method Decide(c: nat, incoming: Access, now: nat) returns (route: Route)
      requires Wired() && c < |channels|
      modifies pim, pim.ssrc
      ensures route == RouteOf(k, old(State()), c, incoming, now)
      ensures pim.Now() == PimAfter(k, old(State()), c, incoming, now)
      ensures pim.ssrc.Now() == SsrcAfter(k.pim, k.ssrc, old(State()).ssrc, c, incoming)
    {
      hide AfterSsrc, AfterAau, AfterPush, TakesSsrc, TakesAau, SsrcAfter;
      ghost var p, s := pim.Now(), pim.ssrc.Now();
      SsrcPasses(k.pim, k.ssrc, p, s, c, incoming);
      var ssrcBypassed := pim.TrySsrcBypass(c, incoming);
      if ssrcBypassed { return ToSsrc; }
      var bypassed := pim.TryAauBypass(c, incoming);
      if bypassed { return ToAau; }
      AauPasses(k.pim, AfterSsrc(k.pim, k.ssrc, p, s, c, incoming), c, incoming);
      var hold := pim.OnDramPush(c, incoming, now);
      return if hold == 0 then ToDram else ToHold(hold);
    }

    /** The command the channel would issue, and the channel without it. */
    method Candidate(c: nat, full: Access -> bool) returns (found: bool, incoming: Access, rest: Channel)
      requires Wired() && c < |channels|
      ensures found == HasIncoming(k, channels[c], c)
      ensures found ==> incoming == Incoming(k, channels[c], c, full) && rest == Taken(k, channels[c], c, full)
    {
      var ch := channels[c];
      found, incoming, rest := true, Access(0, 0, false, false, 0, 0), ch;
      if k.pim.IsPimChannel(c) && ch.ooo != [] {
        var index := SelectPimCommand(c, full);
        incoming := ch.ooo[index];
        rest := ch.(ooo := ch.ooo[..index] + ch.ooo[index + 1..], left := ch.left + [incoming]);
      } else if ch.icnt != [] {
        incoming := ch.icnt[0];
        rest := ch.(icnt := ch.icnt[1..], left := ch.left + [incoming]);
      } else {
        found := false;
      }
    }

    method Issue(c: nat, now: nat, full: Access -> bool)
      requires Wired() && c < |channels|
      modifies this, pim, pim.ssrc
      ensures Wired() && State() == Issued(k, old(State()), c, now, full)
    {
      hide HasIncoming, Taken, Incoming, Select, RouteOf, PimAfter, SsrcAfter, Landed;
      var found, incoming, rest := Candidate(c, full);
      if !found || full(incoming) { return; }
      var route := Decide(c, incoming, now);
      channels := channels[c := Landed(k, rest, incoming, route, now)];
      if !route.ToHold? && k.pim.IsPimChannel(c) {
        issuedCommands := issuedCommands + 1;
      }
    }

    /** The whole turn of one memory channel within a simulator cycle. */
    method TakeTurn(c: nat, e: Surroundings)
      requires Wired() && c < |channels|
      modifies this, pim, pim.ssrc
      ensures Wired() && State() == Turn(k, old(State()), c, e)
    {
      hide Noted, HoldDrained, Refilled, Issued;
      DrainHold(c, e.now, e.fullFirst);
      Refill(c);
      Issue(c, e.now, e.full);
      var ch := channels[c];
      if k.pim.active && ch.aau != [] && ch.aau[0].release <= e.now && !e.icntFull(ch.aau[0].access) {
        ch := ch.(responses := ch.responses + [ch.aau[0].access], aau := ch.aau[1..]);
      }
      if k.pim.active && ch.ssrc != [] && ch.ssrc[0].release <= e.now && !e.icntFull(ch.ssrc[0].access) {
        ch := ch.(responses := ch.responses + [ch.ssrc[0].access], ssrc := ch.ssrc[1..]);
      }
      if e.top.Some? && e.top.value in ch.dram && !e.icntFull(e.top.value) {
        ch := ch.(responses := ch.responses + [e.top.value], dram := ch.dram - multiset{e.top.value});
      }
      channels := channels[c := ch];
    }
  }

  lemma SsrcPasses(cfg: Config, scfg: Ssrc.Config, p: Pim, s: Ssrc.State, c: nat, a: Access)
    ensures var q := AfterSsrc(cfg, scfg, p, s, c, a); q.holdUntil == p.holdUntil && q.rankMode == p.rankMode
    ensures !TakesSsrc(cfg, scfg, s, c, a) ==> SsrcAfter(cfg, scfg, s, c, a) == s
  {
  }

  lemma AauPasses(cfg: Config, p: Pim, c: nat, a: Access)
    requires !TakesAau(cfg, c, a)
    ensures AfterAau(cfg, p, c, a) == p
  {
  }
}
