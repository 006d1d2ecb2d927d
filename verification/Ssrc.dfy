/** The speculative-state rollback coordinator: ONNXim/src/SSRC.h:84-160. */
module Ssrc {
  import opened Pow2s
  import opened Numbers

  datatype Config = Config(enable: bool, threshold: real, bytesPerToken: nat, limit: nat)

  /** An entropy hint, which in the source may be an infinity or a NaN. */
  datatype Hint = Finite(value: real) | NotFinite

  datatype Round = Round(specRound: nat, planned: nat, reserved: nat)

  datatype Stats = Stats(decisions: nat, deferred: nat, refused: nat, committed: nat, discarded: nat, partially: nat,
                         saved: nat, replayed: nat, bypassedWrites: nat, bypassedBytes: nat, peak: nat)

  datatype State = State(active: map<nat, Round>, resident: nat, stats: Stats)

  const INITIAL := State(map[], 0, Stats(0, 0, 0, 0, 0, 0, 0, 0, 0, 0, 0))

  // Operations on the state ---------------------------------------------------------------------------

  predicate Accepts(cfg: Config, s: State, planned: nat, hint: Hint) {
    cfg.enable && hint.Finite? && hint.value > cfg.threshold
      && s.resident + Product(planned, cfg.bytesPerToken) <= cfg.limit
  }

  function Deferred(cfg: Config, s: State, id: nat, specRound: nat, planned: nat, hint: Hint): State {
    var decided := s.stats.(decisions := s.stats.decisions + 1);
    if !cfg.enable then s
    else if hint.NotFinite? || hint.value <= cfg.threshold then s.(stats := decided)
    else
      var bytes := Product(planned, cfg.bytesPerToken);
      if s.resident + bytes > cfg.limit then s.(stats := decided.(refused := decided.refused + 1))
      else
        State(s.active[id := Round(specRound, planned, bytes)], s.resident + bytes,
              decided.(deferred := decided.deferred + 1, peak := Max(decided.peak, s.resident + bytes)))
  }

  function Product(a: nat, b: nat): nat { a * b }

  /** The share of a reservation that accepted tokens replay, rounded down. */
  function Replayed(reserved: nat, accepted: nat, length: nat): (r: nat)
    ensures r <= reserved
  {
    var k := Max(1, length);
    Share(reserved, Min(accepted, k), k);
    reserved * Min(accepted, k) / k
  }

  lemma Share(reserved: nat, acc: nat, k: nat)
    requires acc <= k && k > 0
    ensures 0 <= reserved * acc / k <= reserved
    ensures acc == k ==> reserved * acc / k == reserved
  {
    var q := Quotient(reserved * acc, k);
    MulMono(acc, k, reserved);
    MulCancel(q, reserved, k);
    MulCancel(reserved, q + 1, k);
    assert (q + 1) * k == q * k + k;
  }

  lemma Quotient(a: nat, k: nat) returns (q: nat)
    requires k > 0
    ensures q == a / k && q * k <= a < q * k + k
  {
    q := a / k;
  }

  function Less(a: nat, b: nat): nat { if a >= b then a - b else 0 }

  predicate Matches(cfg: Config, s: State, id: nat, specRound: nat) {
    cfg.enable && id in s.active && s.active[id].specRound == specRound
  }

  function Verified(cfg: Config, s: State, id: nat, specRound: nat, accepted: nat, length: nat): State {
    if !Matches(cfg, s, id, specRound) then s
    else
      var reserved := s.active[id].reserved;
      var replayed := Replayed(reserved, accepted, length);
      var k := Max(1, length);
      var st := s.stats.(replayed := s.stats.replayed + replayed, saved := s.stats.saved + (reserved - replayed));
      var st' := if accepted == 0 then st.(discarded := st.discarded + 1)
                 else if accepted >= k then st.(committed := st.committed + 1)
                 else st.(partially := st.partially + 1);
      State(s.active - {id}, Less(s.resident, reserved), st')
  }

  function Aborted(cfg: Config, s: State, id: nat): State {
    if !cfg.enable || id !in s.active then s
    else State(s.active - {id}, Less(s.resident, s.active[id].reserved), s.stats)
  }

  predicate IsActive(cfg: Config, s: State, id: nat) {
    cfg.enable && id in s.active
  }

  function Noted(cfg: Config, s: State, id: nat, bytes: nat): State {
    if !IsActive(cfg, s, id) then s
    else s.(stats := s.stats.(bypassedWrites := s.stats.bypassedWrites + 1,
                              bypassedBytes := s.stats.bypassedBytes + bytes))
  }

  // The class -----------------------------------------------------------------------------------------

  class SSRCCoordinator {
    const cfg: Config
    var activeRequests: map<nat, Round>
    var residentBytes: nat
    var stats: Stats

    ghost function Now(): State
      reads this
    {
      State(activeRequests, residentBytes, stats)
    }

    constructor (cfg: Config)
      ensures this.cfg == cfg && Now() == INITIAL
    {
      this.cfg := cfg;
      activeRequests, residentBytes, stats := map[], 0, Stats(0, 0, 0, 0, 0, 0, 0, 0, 0, 0, 0);
    }

    method ShouldDeferRound(id: nat, specRound: nat, planned: nat, hint: Hint) returns (deferred: bool)
      modifies this
      ensures Now() == Deferred(cfg, old(Now()), id, specRound, planned, hint)
      ensures deferred == Accepts(cfg, old(Now()), planned, hint)
    {
      if !cfg.enable { return false; }
      stats := stats.(decisions := stats.decisions + 1);
      if hint.NotFinite? { return false; }
      if hint.value <= cfg.threshold { return false; }
      var bytes := Product(planned, cfg.bytesPerToken);
      if residentBytes + bytes > cfg.limit {
        stats := stats.(refused := stats.refused + 1);
        return false;
      }
      activeRequests := activeRequests[id := Round(specRound, planned, bytes)];
      residentBytes := residentBytes + bytes;
      if residentBytes > stats.peak {
        stats := stats.(peak := residentBytes);
      }
      stats := stats.(deferred := stats.deferred + 1);
      return true;
    }

    method OnRoundVerified(id: nat, specRound: nat, acceptedLength: nat, roundDraftLength: nat)
      modifies this
      ensures Now() == Verified(cfg, old(Now()), id, specRound, acceptedLength, roundDraftLength)
    {
      if !cfg.enable || id !in activeRequests { return; }
      if activeRequests[id].specRound != specRound { return; }
      var reserved := activeRequests[id].reserved;
      var k := Max(1, roundDraftLength);
      var acc := Min(acceptedLength, k);
      var replayed := Replayed(reserved, acceptedLength, roundDraftLength);
      var saved := reserved - replayed;
      stats := stats.(replayed := stats.replayed + replayed, saved := stats.saved + saved);
      if acc == 0 {
        stats := stats.(discarded := stats.discarded + 1);
      } else if acc == k {
        stats := stats.(committed := stats.committed + 1);
      } else {
        stats := stats.(partially := stats.partially + 1);
      }
      residentBytes := if residentBytes >= reserved then residentBytes - reserved else 0;
      activeRequests := activeRequests - {id};
    }

    method AbortRequest(id: nat)
      modifies this
      ensures Now() == Aborted(cfg, old(Now()), id)
    {
      if !cfg.enable || id !in activeRequests { return; }
      residentBytes := if residentBytes >= activeRequests[id].reserved then residentBytes - activeRequests[id].reserved
        else 0;
      activeRequests := activeRequests - {id};
    }

    method IsActiveRequest(id: nat) returns (active: bool)
      ensures active == IsActive(cfg, Now(), id)
    {
      active := cfg.enable && id in activeRequests;
    }

    method NoteBypassedWrite(id: nat, bytes: nat)
      modifies this
      ensures Now() == Noted(cfg, old(Now()), id, bytes)
    {
      if !cfg.enable || id !in activeRequests { return; }
      stats := stats.(bypassedWrites := stats.bypassedWrites + 1, bypassedBytes := stats.bypassedBytes + bytes);
    }
  }

  // Accounting over whole runs ------------------------------------------------------------------------

  /** The state with what the source does not count: everything ever reserved, what aborts gave back, and
      the reservations lost because their request was deferred again while still active. */
  datatype Ledger = Ledger(s: State, reserved: nat, abortedBytes: nat, abortedRounds: nat, lostBytes: nat,
                           lostRounds: nat)

  datatype Event =
    | Defer(id: nat, specRound: nat, planned: nat, hint: Hint)
    | Verify(id: nat, specRound: nat, accepted: nat, length: nat)
    | Abort(id: nat)
    | Note(id: nat, bytes: nat)

  function Step(cfg: Config, l: Ledger, e: Event): Ledger {
    match e
    case Defer(id, specRound, planned, hint) =>
      var s' := Deferred(cfg, l.s, id, specRound, planned, hint);
      if Accepts(cfg, l.s, planned, hint) then
        l.(s := s', reserved := l.reserved + Product(planned, cfg.bytesPerToken),
           lostBytes := l.lostBytes + (if id in l.s.active then l.s.active[id].reserved else 0),
           lostRounds := l.lostRounds + (if id in l.s.active then 1 else 0))
      else l.(s := s')
    case Verify(id, specRound, accepted, length) => l.(s := Verified(cfg, l.s, id, specRound, accepted, length))
    case Abort(id) =>
      if IsActive(cfg, l.s, id) then
        l.(s := Aborted(cfg, l.s, id), abortedBytes := l.abortedBytes + l.s.active[id].reserved,
           abortedRounds := l.abortedRounds + 1)
      else l
    case Note(id, bytes) => l.(s := Noted(cfg, l.s, id, bytes))
  }

  function Run(cfg: Config, l: Ledger, es: seq<Event>): Ledger
    decreases |es|
  {
    if es == [] then l else Run(cfg, Step(cfg, l, es[0]), es[1..])
  }

  ghost function Reserved(active: map<nat, Round>): nat
    decreases |active|
  {
    if active == map[] then 0
    else
      var id :| id in active;
      active[id].reserved + Reserved(active - {id})
  }

  lemma {:induction false} ReservedRemove(active: map<nat, Round>, id: nat)
    requires id in active
    ensures Reserved(active) == active[id].reserved + Reserved(active - {id})
    decreases |active|
  {
    var pick :| pick in active && Reserved(active) == active[pick].reserved + Reserved(active - {pick});
    if pick != id {
      ReservedRemove(active - {pick}, id);
      ReservedRemove(active - {id}, pick);
      assert active - {pick} - {id} == active - {id} - {pick};
    }
  }

  lemma ReservedPut(active: map<nat, Round>, id: nat, r: Round)
    ensures Reserved(active[id := r]) == r.reserved + Reserved(active - {id})
    ensures |active[id := r]| == 1 + |active - {id}|
  {
    var put: map<nat, Round> := active[id := r];
    assert put - {id} == active - {id};
    hide Reserved;
    Shrinks(put, id);
  }

  /** Every byte and every round is somewhere. */
  ghost predicate Balanced(cfg: Config, l: Ledger) {
    var s, st := l.s, l.s.stats;
    && s.resident == Reserved(s.active) + l.lostBytes
    && s.resident <= st.peak <= cfg.limit
    && l.reserved == st.saved + st.replayed + l.abortedBytes + s.resident
    && st.deferred == st.committed + st.discarded + st.partially + l.abortedRounds + |s.active| + l.lostRounds
  }

  lemma StepBalances(cfg: Config, l: Ledger, e: Event)
    requires Balanced(cfg, l)
    ensures Balanced(cfg, Step(cfg, l, e))
  {
    match e
    case Defer(_, _, _, _) => DeferBalances(cfg, l, e);
    case Verify(_, _, _, _) => VerifyBalances(cfg, l, e);
    case Abort(_) => AbortBalances(cfg, l, e);
    case Note(_, _) => hide Reserved;
  }

  lemma VerifyBalances(cfg: Config, l: Ledger, e: Event)
    requires Balanced(cfg, l) && e.Verify?
    ensures Balanced(cfg, Step(cfg, l, e))
  {
    hide Replayed, Reserved;
    if e.id in l.s.active {
      Shrinks(l.s.active, e.id);
    }
  }

  lemma AbortBalances(cfg: Config, l: Ledger, e: Event)
    requires Balanced(cfg, l) && e.Abort?
    ensures Balanced(cfg, Step(cfg, l, e))
  {
    hide Reserved;
    if e.id in l.s.active {
      Shrinks(l.s.active, e.id);
    }
  }

  lemma DeferBalances(cfg: Config, l: Ledger, e: Event)
    requires Balanced(cfg, l) && e.Defer?
    ensures Balanced(cfg, Step(cfg, l, e))
  {
    hide Product, Reserved;
    if Accepts(cfg, l.s, e.planned, e.hint) {
      var active, r := l.s.active, Round(e.specRound, e.planned, Product(e.planned, cfg.bytesPerToken));
      PutReserved(active, e.id, r);
    }
  }

  /** A new reservation replaces what its request had, if anything. */
  lemma PutReserved(active: map<nat, Round>, id: nat, r: Round)
    ensures Reserved(active[id := r]) + (if id in active then active[id].reserved else 0)
         == Reserved(active) + r.reserved
    ensures |active[id := r]| + (if id in active then 1 else 0) == |active| + 1
  {
    hide Reserved;
    ReservedPut(active, id, r);
    if id in active {
      Shrinks(active, id);
    } else {
      assert active - {id} == active;
    }
  }

  lemma Shrinks(active: map<nat, Round>, id: nat)
    requires id in active
    ensures |active| == |active - {id}| + 1
    ensures Reserved(active) == active[id].reserved + Reserved(active - {id})
  {
    ReservedRemove(active, id);
    assert (active - {id}).Keys == active.Keys - {id};
  }

  lemma {:induction false} RunBalances(cfg: Config, l: Ledger, es: seq<Event>)
    requires Balanced(cfg, l)
    ensures Balanced(cfg, Run(cfg, l, es))
    decreases |es|
  {
    if es != [] {
      hide Step, Balanced;
      StepBalances(cfg, l, es[0]);
      RunBalances(cfg, Step(cfg, l, es[0]), es[1..]);
    }
  }

  const EMPTY := Ledger(INITIAL, 0, 0, 0, 0, 0)

  /** The event is accepted and meets an active request. */
  predicate Redefers(cfg: Config, l: Ledger, e: Event) {
    e.Defer? && Accepts(cfg, l.s, e.planned, e.hint) && e.id in l.s.active
  }

  /** And the reservation it overwrites is not empty. */
  predicate Overwrites(cfg: Config, l: Ledger, e: Event) {
    Redefers(cfg, l, e) && l.s.active[e.id].reserved > 0
  }

  /** No event of the run does so. */
  predicate LosesNoRound(cfg: Config, l: Ledger, es: seq<Event>)
    decreases |es|
  {
    es == [] || (!Redefers(cfg, l, es[0]) && LosesNoRound(cfg, Step(cfg, l, es[0]), es[1..]))
  }

  predicate LosesNothing(cfg: Config, l: Ledger, es: seq<Event>)
    decreases |es|
  {
    es == [] || (!Overwrites(cfg, l, es[0]) && LosesNothing(cfg, Step(cfg, l, es[0]), es[1..]))
  }

  lemma {:induction false} LossGrows(cfg: Config, l: Ledger, es: seq<Event>)
    ensures Run(cfg, l, es).lostBytes >= l.lostBytes && Run(cfg, l, es).lostRounds >= l.lostRounds
    decreases |es|
  {
    if es != [] {
      LossGrows(cfg, Step(cfg, l, es[0]), es[1..]);
    }
  }

  lemma {:induction false} LossIff(cfg: Config, l: Ledger, es: seq<Event>)
    ensures Run(cfg, l, es).lostBytes == l.lostBytes <==> LosesNothing(cfg, l, es)
    ensures Run(cfg, l, es).lostRounds == l.lostRounds <==> LosesNoRound(cfg, l, es)
    decreases |es|
  {
    if es != [] {
      StepLoss(cfg, l, es[0]);
      hide Step, Overwrites, Redefers;
      LossGrows(cfg, Step(cfg, l, es[0]), es[1..]);
      LossIff(cfg, Step(cfg, l, es[0]), es[1..]);
    }
  }

  lemma StepLoss(cfg: Config, l: Ledger, e: Event)
    ensures var t := Step(cfg, l, e);
            && t.lostBytes >= l.lostBytes && (t.lostBytes == l.lostBytes <==> !Overwrites(cfg, l, e))
            && t.lostRounds >= l.lostRounds && (t.lostRounds == l.lostRounds <==> !Redefers(cfg, l, e))
  {
  }

  /** Over all runs the active reservations, what is resident, the peak and the limit are in order. The active
      reservations make up what is resident exactly if no accepted deferral of the run met an active, non-empty
      reservation of the same request, and the rounds balance exactly if none met an active request at all. */
  lemma Accounting(cfg: Config, es: seq<Event>)
    ensures var l := Run(cfg, EMPTY, es);
            var s, st := l.s, l.s.stats;
            && Reserved(s.active) <= s.resident <= st.peak <= cfg.limit
            && (Reserved(s.active) == s.resident <==> LosesNothing(cfg, EMPTY, es))
            && l.reserved == st.saved + st.replayed + l.abortedBytes + s.resident
            && (st.deferred == st.committed + st.discarded + st.partially + l.abortedRounds + |s.active| <==>
                  LosesNoRound(cfg, EMPTY, es))
  {
    RunBalances(cfg, EMPTY, es);
    LossIff(cfg, EMPTY, es);
  }

  /** The equality does fail when a request is deferred again: its first reservation stays resident for good. */
  lemma RedeferralLeaks(cfg: Config)
    requires cfg.enable && cfg.limit >= 2 * cfg.bytesPerToken && cfg.bytesPerToken > 0
    ensures var hint := Finite(cfg.threshold + 1.0);
            var l := Run(cfg, EMPTY, [Defer(7, 0, 1, hint), Defer(7, 1, 1, hint), Verify(7, 1, 0, 1)]);
            l.s.active == map[] && l.s.resident == cfg.bytesPerToken
  {
    var hint := Finite(cfg.threshold + 1.0);
    var d0, d1, v := Defer(7, 0, 1, hint), Defer(7, 1, 1, hint), Verify(7, 1, 0, 1);
    assert [d0, d1, v][1..] == [d1, v] && [d1, v][1..] == [v] && [v][1..] == [];
    var l1 := Step(cfg, EMPTY, d0);
    var l2 := Step(cfg, l1, d1);
    var l3 := Step(cfg, l2, v);
    assert Run(cfg, l3, []) == l3;
    assert Run(cfg, l2, [v]) == l3;
    assert Run(cfg, l1, [d1, v]) == l3;
    assert l3.s.active == map[];
  }

  /** Pro-rata settlement: nothing accepted replays nothing, everything accepted replays everything. */
  lemma Settlement(reserved: nat, accepted: nat, length: nat)
    ensures accepted == 0 ==> Replayed(reserved, accepted, length) == 0
    ensures accepted >= Max(1, length) ==> Replayed(reserved, accepted, length) == reserved
  {
    Share(reserved, Min(accepted, Max(1, length)), Max(1, length));
  }
}
