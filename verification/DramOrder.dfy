/** In what order requests enter the DRAM of a channel that holds some back.
    ONNXim/src/Simulator.cc:351-362, 424-438. */
module DramOrder {
  import opened Options
  import Ssrc
  import opened PimBackend
  import opened Routing

  /** The turn has come to issue a, and the DRAM has room for it. */
  ghost predicate Issues(k: Setup, s: System, c: nat, e: Surroundings, a: Access)
    requires Sized(k, s) && c < |s.channels|
  {
    var ch := AtIssue(k, s, c, e).channels[c];
    HasIncoming(k, ch, c) && a == Incoming(k, ch, c, e.full) && !e.full(a)
  }

  /** It goes straight to the DRAM while others are still held. */
  ghost predicate PushesPast(k: Setup, s: System, c: nat, e: Surroundings, a: Access)
    requires Sized(k, s) && c < |s.channels| && Issues(k, s, c, e, a)
  {
    AroundIssue(k, s, c, e);
    RouteOf(k, AtIssue(k, s, c, e), c, a, e.now).ToDram? && AtIssue(k, s, c, e).channels[c].hold != []
  }

  lemma HoldAtIssue(k: Setup, s: System, c: nat, e: Surroundings)
    requires Sized(k, s) && c < |s.channels|
    ensures var ch, ch1 := s.channels[c], AtIssue(k, s, c, e).channels[c];
            ch1.hold == if HoldExpired(k, ch, e.now, e.fullFirst) then ch.hold[1..] else ch.hold
  {
  }

  lemma IssueEnters(k: Setup, s: System, c: nat, now: nat, full: Access -> bool)
    requires Sized(k, s) && c < |s.channels| && HasIncoming(k, s.channels[c], c)
    requires var a := Incoming(k, s.channels[c], c, full); !full(a) && RouteOf(k, s, c, a, now).ToDram?
    ensures var ch, ch' := s.channels[c], Issued(k, s, c, now, full).channels[c];
            && ch'.hold == ch.hold && ch'.entered == ch.entered + multiset{Incoming(k, ch, c, full)}
  {
    hide PimAfter, Incoming, HasIncoming, SsrcAfter, RouteOf, Select;
  }

  lemma AnswersKeep(k: Setup, ch: Channel, e: Surroundings)
    ensures var ch' := Answered(BypassDrained(k, ch, e.now, e.icntFull), e.top, e.icntFull);
            ch'.entered == ch.entered && ch'.hold == ch.hold
  {
  }

  lemma TurnEnters(k: Setup, s: System, c: nat, e: Surroundings)
    requires Sized(k, s) && c < |s.channels|
    ensures var s2 := Issued(k, AtIssue(k, s, c, e), c, e.now, e.full);
            && c < |s2.channels| && Turn(k, s, c, e).channels[c].entered == s2.channels[c].entered
            && Turn(k, s, c, e).channels[c].hold == s2.channels[c].hold
  {
    AroundIssue(k, s, c, e);
    hide Issued, AtIssue, BypassDrained, Answered;
    AnswersKeep(k, Issued(k, AtIssue(k, s, c, e), c, e.now, e.full).channels[c], e);
  }

  lemma InvAt(k: Setup, s: System, now: nat, c: nat)
    requires Inv(k, s, now) && c < |s.channels|
    ensures c < |s.pim.holdUntil| && ChannelInv(k, s.channels[c], c, s.pim.holdUntil[c], now)
  {
    hide ChannelInv, Counts;
  }

  /** The hold queue of a channel outside the PIM ranks is empty; elsewhere nothing in it lies beyond the deadline. */
  lemma HeldAreDue(k: Setup, ch: Channel, c: nat, until: nat, now: nat)
    requires ChannelInv(k, ch, c, until, now)
    ensures ch.hold != [] ==> k.pim.IsPimChannel(c)
    ensures forall h :: h in ch.hold ==> h.release <= until
  {
    hide Flow;
  }

  lemma DirectRoute(k: Setup, s: System, c: nat, a: Access, now: nat)
    requires Sized(k, s) && c < |s.pim.holdUntil| && k.pim.IsPimChannel(c)
    ensures RouteOf(k, s, c, a, now).ToDram? <==>
              !TakesSsrc(k.pim, k.ssrc, s.ssrc, c, a) && !TakesAau(k.pim, c, a) && s.pim.holdUntil[c] <= now
  {
    hide TakesSsrc, TakesAau;
  }

  lemma PushesPastIff(k: Setup, s: System, now: nat, c: nat, e: Surroundings, a: Access)
    requires Sized(k, s) && c < |s.channels| && ChannelInv(k, s.channels[c], c, s.pim.holdUntil[c], now)
    requires Issues(k, s, c, e, a)
    ensures PushesPast(k, s, c, e, a) <==>
              && !TakesSsrc(k.pim, k.ssrc, s.ssrc, c, a) && !TakesAau(k.pim, c, a) && s.pim.holdUntil[c] <= e.now
              && |s.channels[c].hold| > CountIf(HoldExpired(k, s.channels[c], e.now, e.fullFirst))
  {
    hide Turn, AtIssue, Incoming, HasIncoming, TakesSsrc, TakesAau, ChannelInv, RouteOf, Issues;
    AroundIssue(k, s, c, e);
    HoldAtIssue(k, s, c, e);
    HeldAreDue(k, s.channels[c], c, s.pim.holdUntil[c], now);
    if s.channels[c].hold != [] {
      DirectRoute(k, AtIssue(k, s, c, e), c, a, e.now);
    }
  }

  lemma PushedPast(k: Setup, s: System, now: nat, c: nat, e: Surroundings, a: Access)
    requires Sized(k, s) && c < |s.channels| && ChannelInv(k, s.channels[c], c, s.pim.holdUntil[c], now)
    requires Issues(k, s, c, e, a) && PushesPast(k, s, c, e, a) && s.pim.holdUntil[c] <= e.now
    ensures var ch1, ch' := AtIssue(k, s, c, e).channels[c], Turn(k, s, c, e).channels[c];
            && ch'.entered == ch1.entered + multiset{a} && ch'.hold == ch1.hold != []
            && forall h :: h in ch'.hold ==> h.release <= e.now
  {
    hide Turn, AtIssue, Incoming, HasIncoming, ChannelInv, RouteOf, HoldExpired, Issued;
    AroundIssue(k, s, c, e);
    HoldAtIssue(k, s, c, e);
    HeldAreDue(k, s.channels[c], c, s.pim.holdUntil[c], now);
    IssueEnters(k, AtIssue(k, s, c, e), c, e.now, e.full);
    TurnEnters(k, s, c, e);
  }

  /** Over every run: what a turn issues enters the DRAM before requests that were held back earlier exactly if no
      bypass takes it, the channel's deadline has passed, and the hold queue is not empty once its front had its
      chance, as it lets go of one request a turn at most. Whatever is overtaken is due as well: a request that
      is still to be held is never passed. */
  lemma DirectPushOvertakes(k: Setup, es: seq<Event>, s: System, now: nat, c: nat, e: Surroundings, a: Access)
    requires Runs(k, Start(k), 0, es, s, now) && Possible(s, now, At(e.now, ChannelTurn(c, e))) && Sized(k, s)
    requires Issues(k, s, c, e, a)
    ensures PushesPast(k, s, c, e, a) <==>
              && !TakesSsrc(k.pim, k.ssrc, s.ssrc, c, a) && !TakesAau(k.pim, c, a) && s.pim.holdUntil[c] <= e.now
              && |s.channels[c].hold| > CountIf(HoldExpired(k, s.channels[c], e.now, e.fullFirst))
    ensures PushesPast(k, s, c, e, a) ==>
              var ch1, ch' := AtIssue(k, s, c, e).channels[c], Turn(k, s, c, e).channels[c];
              && ch'.entered == ch1.entered + multiset{a} && ch'.hold == ch1.hold != []
              && forall h :: h in ch'.hold ==> h.release <= e.now
  {
    hide Inv, Turn, AtIssue, Runs, TakesSsrc, TakesAau, HoldExpired, ChannelInv, Issues, PushesPast;
    EveryRunKeeps(k, es, s, now);
    InvAt(k, s, now, c);
    PushesPastIff(k, s, now, c, e, a);
    if PushesPast(k, s, c, e, a) {
      PushedPast(k, s, now, c, e, a);
    }
  }

  // A run in which it happens -------------------------------------------------------------------------

  /** One PIM channel, no bypass, commands in order. */
  const ONE := Setup(Config(true, [true], false, 0, 0, 0), Ssrc.Config(false, 0.0, 0, 0), false, 8)

  function Read(id: nat): Access { Access(id, 64, false, false, INVALID_REQUEST_ID, 0) }

  const NEVER := (a: Access) => false

  function At1(now: nat): Surroundings { Surroundings(now, NEVER, NEVER, NEVER, None) }

  /** The channel is held until cycle 5. */
  ghost predicate Shows(s: System, ch: Channel) {
    Sized(ONE, s) && s.channels == [ch] && s.pim.holdUntil == [5]
  }

  const X := Read(1)
  const Y := Read(2)
  const Z := Read(3)

  /** Two requests have come in; the first n are held, and the others wait. */
  const NONE_HELD := EMPTY.(icnt := [X, Y], arrivals := [X, Y])
  const ONE_HELD := EMPTY.(ooo := [Y], hold := [Held(5, X)], arrivals := [X, Y], left := [X])
  const BOTH_HELD := EMPTY.(hold := [Held(5, X), Held(5, Y)], arrivals := [X, Y], left := [X, Y])
  const THIRD_IN := BOTH_HELD.(icnt := [Z], arrivals := [X, Y, Z])

  /** A turn that holds back the first of the queued requests. */
  lemma HoldsFirst(s: System, now: nat, ch: Channel, queued: Channel, a: Access, rest: seq<Access>)
    requires Shows(s, ch) && now < 5 && (ch.hold != [] ==> ch.hold[0].release > now)
    requires queued == ch.(ooo := [a] + rest, icnt := []) && ch.aau == [] && ch.ssrc == []
    requires ch.ooo + ch.icnt == [a] + rest && |ch.ooo + ch.icnt| <= 8
    ensures Shows(Turn(ONE, s, 0, At1(now)),
                  queued.(ooo := rest, left := ch.left + [a], hold := ch.hold + [Held(5, a)]))
  {
    Queues(s, now, ch, queued);
    var s1 := AtIssue(ONE, s, 0, At1(now));
    Holds(s1, now, queued, a, rest);
    hide AtIssue, Issued;
    AroundIssue(ONE, s, 0, At1(now));
  }

  lemma Queues(s: System, now: nat, ch: Channel, queued: Channel)
    requires Shows(s, ch) && (ch.hold != [] ==> ch.hold[0].release > now)
    requires queued == ch.(ooo := ch.ooo + ch.icnt, icnt := []) && |ch.ooo + ch.icnt| <= 8
    ensures Shows(AtIssue(ONE, s, 0, At1(now)), queued)
  {
    assert ch.icnt[..|ch.icnt|] == ch.icnt && ch.icnt[|ch.icnt|..] == [];
    assert [ch][0 := queued] == [queued];
  }

  lemma Holds(s: System, now: nat, ch: Channel, a: Access, rest: seq<Access>)
    requires Shows(s, ch) && now < 5 && ch.ooo == [a] + rest
    ensures Shows(Issued(ONE, s, 0, now, NEVER),
                  ch.(ooo := rest, left := ch.left + [a], hold := ch.hold + [Held(5, a)]))
  {
    var ch' := ch.(ooo := rest, left := ch.left + [a], hold := ch.hold + [Held(5, a)]);
    assert ch.ooo[..0] + ch.ooo[1..] == rest;
    assert [ch][0 := ch'] == [ch'];
    assert RouteOf(ONE, s, 0, a, now) == ToHold(5 - now);
    hide PimAfter, SsrcAfter, RouteOf;
  }

  lemma {:induction false} RunsThen(k: Setup, s: System, now: nat, es: seq<Event>, t: System, end: nat, e: Event)
    requires Runs(k, s, now, es, t, end) && Sized(k, t) && Possible(t, end, e)
    ensures Possible(t, 0, e) && Runs(k, s, now, es + [e], Step(k, t, e), e.now)
    decreases |es|
  {
    hide Step;
    if es == [] {
      assert es + [e] == [e] && [e][1..] == [];
      assert Runs(k, Step(k, t, e), e.now, [], Step(k, t, e), e.now);
    } else {
      assert (es + [e])[1..] == es[1..] + [e];
      RunsThen(k, Step(k, s, es[0]), es[0].now, es[1..], t, end, e);
    }
  }

  lemma Arrives(s: System, ch: Channel, now: nat, a: Access, ch': Channel)
    requires Shows(s, ch) && ch' == ch.(icnt := ch.icnt + [a], arrivals := ch.arrivals + [a])
    ensures Shows(Step(ONE, s, At(now, Arrive(0, a))), ch')
  {
    assert [ch][0 := ch'] == [ch'];
  }

  /** The channel gets its deadline, and the two requests come in. */
  lemma TwoArrive() returns (es: seq<Event>, s: System)
    ensures Runs(ONE, Start(ONE), 0, es, s, 0) && Shows(s, NONE_HELD)
  {
    var s0 := Start(ONE);
    var e0, e1, e2 := At(0, HoldOne(0, 5)), At(0, Arrive(0, X)), At(0, Arrive(0, Y));
    var s1 := Step(ONE, s0, e0);
    assert Shows(s1, EMPTY);
    hide Step, Shows, Runs;
    var s2 := Step(ONE, s1, e1);
    assert [] + [X] == [X] && [X] + [Y] == [X, Y];
    Arrives(s1, EMPTY, 0, X, EMPTY.(icnt := [X], arrivals := [X]));
    s := Step(ONE, s2, e2);
    Arrives(s2, EMPTY.(icnt := [X], arrivals := [X]), 0, Y, NONE_HELD);
    assert Sized(ONE, s0) && Sized(ONE, s1) && Sized(ONE, s2) by { ShowsSized(s1, s2); }
    assert Runs(ONE, s0, 0, [], s0, 0) by { RunsNot(s0); }
    RunsThen(ONE, s0, 0, [], s0, 0, e0);
    RunsThen(ONE, s0, 0, [e0], s1, 0, e1);
    RunsThen(ONE, s0, 0, [e0] + [e1], s2, 0, e2);
    es := [e0] + [e1] + [e2];
  }

  lemma RunsNot(s: System)
    ensures Runs(ONE, s, 0, [], s, 0)
  {
  }

  lemma ShowsSized(s: System, t: System)
    requires (exists ch :: Shows(s, ch)) && (exists ch :: Shows(t, ch))
    ensures Sized(ONE, Start(ONE)) && Sized(ONE, s) && Sized(ONE, t)
    ensures |Start(ONE).channels| == |s.channels| == |t.channels| == 1
  {
  }

  lemma TwoTurns(es: seq<Event>, s: System)
    requires Runs(ONE, Start(ONE), 0, es, s, 0) && Shows(s, NONE_HELD)
    ensures var t := Turn(ONE, s, 0, At1(1));
            && Sized(ONE, t) && |t.channels| == 1
            && Runs(ONE, Start(ONE), 0, es + [At(1, ChannelTurn(0, At1(1)))] + [At(2, ChannelTurn(0, At1(2)))],
                    Turn(ONE, t, 0, At1(2)), 2)
            && Shows(Turn(ONE, t, 0, At1(2)), BOTH_HELD)
  {
    hide Turn, Runs, Step, Shows, Possible;
    FirstIsHeld(s);
    TurnStep(s, NONE_HELD, 0, 1);
    var t := Turn(ONE, s, 0, At1(1));
    SecondIsHeld(t);
    TurnStep(t, ONE_HELD, 1, 2);
    RunsThen(ONE, Start(ONE), 0, es, s, 0, At(1, ChannelTurn(0, At1(1))));
    RunsThen(ONE, Start(ONE), 0, es + [At(1, ChannelTurn(0, At1(1)))], t, 1, At(2, ChannelTurn(0, At1(2))));
  }

  lemma CanArrive(s: System, ch: Channel, now: nat, a: Access)
    requires Shows(s, ch)
    ensures Sized(ONE, s) && Possible(s, 0, At(now, Arrive(0, a))) && Possible(s, now, At(now, Arrive(0, a)))
  {
  }

  lemma ThirdArrives(es: seq<Event>, s: System)
    requires Runs(ONE, Start(ONE), 0, es, s, 2) && Shows(s, BOTH_HELD)
    ensures exists fs, t :: Runs(ONE, Start(ONE), 0, fs, t, 2) && Shows(t, THIRD_IN)
  {
    hide Runs, Step, Shows, Possible;
    var e := At(2, Arrive(0, Z));
    CanArrive(s, BOTH_HELD, 2, Z);
    assert [] + [Z] == [Z] && [X, Y] + [Z] == [X, Y, Z];
    Arrives(s, BOTH_HELD, 2, Z, THIRD_IN);
    RunsThen(ONE, Start(ONE), 0, es, s, 2, e);
  }

  lemma BothAreHeld() returns (es: seq<Event>, s: System)
    ensures Runs(ONE, Start(ONE), 0, es, s, 2) && Shows(s, THIRD_IN)
  {
    hide Turn, Runs, Step, Shows;
    var fs, s0 := TwoArrive();
    TurnStep(s0, NONE_HELD, 0, 1);
    TwoTurns(fs, s0);
    ThirdArrives(fs + [At(1, ChannelTurn(0, At1(1)))] + [At(2, ChannelTurn(0, At1(2)))],
                 Turn(ONE, Turn(ONE, s0, 0, At1(1)), 0, At1(2)));
    es, s :| Runs(ONE, Start(ONE), 0, es, s, 2) && Shows(s, THIRD_IN);
  }

  lemma TurnStep(s: System, ch: Channel, before: nat, now: nat)
    requires before <= now && Shows(s, ch)
    ensures var e := At(now, ChannelTurn(0, At1(now)));
            && Sized(ONE, s) && |s.channels| == 1 && Possible(s, 0, e) && Possible(s, before, e)
            && Step(ONE, s, e) == Turn(ONE, s, 0, At1(now))
  {
    hide Turn;
  }

  lemma FirstIsHeld(s: System)
    requires Shows(s, NONE_HELD)
    ensures Shows(Turn(ONE, s, 0, At1(1)), ONE_HELD)
  {
    hide Turn, Shows;
    assert [X] + [Y] == [X, Y] && [] + [X] == [X] && [] + [Held(5, X)] == [Held(5, X)];
    HoldsFirst(s, 1, NONE_HELD, NONE_HELD.(ooo := [X, Y], icnt := []), X, [Y]);
  }

  lemma SecondIsHeld(s: System)
    requires Shows(s, ONE_HELD)
    ensures Shows(Turn(ONE, s, 0, At1(2)), BOTH_HELD)
  {
    hide Turn, Shows;
    assert [Y] + [] == [Y] && [X] + [Y] == [X, Y] && [Held(5, X)] + [Held(5, Y)] == [Held(5, X), Held(5, Y)];
    HoldsFirst(s, 2, ONE_HELD, ONE_HELD, Y, []);
  }

  /** Two requests are held until cycle 5, and a third comes in. In cycle 5 the first of them goes on, and the third
      goes past the second. */
  lemma ThirdGoesFirst() returns (es: seq<Event>, s: System)
    ensures Runs(ONE, Start(ONE), 0, es, s, 2) && Shows(s, THIRD_IN)
    ensures Issues(ONE, s, 0, At1(5), Z) && PushesPast(ONE, s, 0, At1(5), Z)
    ensures Held(5, Y) in Turn(ONE, s, 0, At1(5)).channels[0].hold
  {
    es, s := BothAreHeld();
    EveryRunKeeps(ONE, es, s, 2);
    InvAt(ONE, s, 2, 0);
    ThirdIssues(s);
    hide Turn, Issues, PushesPast, Runs, ChannelInv, Inv;
    PushesPastIff(ONE, s, 2, 0, At1(5), Z);
    PushedPast(ONE, s, 2, 0, At1(5), Z);
    HoldAtIssue(ONE, s, 0, At1(5));
  }

  lemma ThirdIssues(s: System)
    requires Shows(s, THIRD_IN)
    ensures Issues(ONE, s, 0, At1(5), Z)
  {
  }
}
