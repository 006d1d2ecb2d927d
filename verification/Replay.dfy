/** The speculative-decoding replay: draft lengths, prefix acceptance and pre-verification.
    scripts/run_etcc_trace_replay.py:111-195 and 225-275. */
module Replay {
  datatype Config = Config(maxDraftLength: int, targetAccepted: int, lengthDecay: real, pMin: real,
                           entropyMid: real, entropyHigh: real, recentWindow: int, recentLow: real,
                             maxLeadingBatches: int,
                           tvcEntropy: real, tvcPreverifyLen: int, tvcMinDraftLen: int,
                           verifyBase: real, verifyToken: real, verifyContext: real,
                           draftBase: real, draftToken: real, preverifyBase: real, preverifyToken: real)

  /** What one round draws: the entropy, the acceptance scaled by its exponential, and a uniform per token. */
  datatype Draw = Draw(entropy: real, scaled: real, uniform: nat -> real)

  datatype Mode = Without | EdcOnly | Full

  function Max(a: int, b: int): int { if a < b then b else a }
  function Min(a: int, b: int): int { if a < b then a else b }
  function MaxReal(a: real, b: real): real { if a < b then b else a }
  function MinReal(a: real, b: real): real { if a < b then a else b }

  // Acceptance ----------------------------------------------------------------------------------------

  function Fraction(token: nat, length: int): real {
    token as real / Max(1, length - 1) as real
  }

  function Start(cfg: Config, d: Draw): real {
    MaxReal(cfg.pMin, MinReal(1.0, d.scaled))
  }

  function Decayed(p: real, decay: real, fraction: real): real {
    p * (1.0 - decay * fraction)
  }

  function AcceptProbability(cfg: Config, d: Draw, token: nat, length: int): real {
    MaxReal(cfg.pMin, MinReal(1.0, Decayed(Start(cfg, d), cfg.lengthDecay, Fraction(token, length))))
  }

  predicate Accepts(cfg: Config, d: Draw, token: nat, length: int) {
    d.uniform(token) <= AcceptProbability(cfg, d, token, length)
  }

  /** The tokens from `i` on that a draft of this length keeps before the first one it rejects. */
  function PrefixFrom(cfg: Config, d: Draw, length: int, i: nat): (r: nat)
    decreases length - i
  {
    if i < length && Accepts(cfg, d, i, length) then 1 + PrefixFrom(cfg, d, length, i + 1) else 0
  }

  function AcceptedPrefix(cfg: Config, d: Draw, length: int): nat {
    PrefixFrom(cfg, d, length, 0)
  }

  method CountAcceptedPrefix(cfg: Config, d: Draw, length: int) returns (accepted: nat)
    ensures accepted == AcceptedPrefix(cfg, d, length)
  {
    accepted := 0;
    for i := 0 to Max(0, length)
      invariant accepted == i && AcceptedPrefix(cfg, d, length) == i + PrefixFrom(cfg, d, length, i)
    {
      if Accepts(cfg, d, i, length) {
        accepted := accepted + 1;
      } else {
        break;
      }
    }
  }

  /** The prefix ends at the first token that is rejected, or at the end of the draft. */
  lemma {:induction false} PrefixFromIsFirst(cfg: Config, d: Draw, length: int, i: nat)
    requires i <= Max(0, length)
    ensures var r := i + PrefixFrom(cfg, d, length, i);
            && r <= Max(0, length) && (r < length ==> !Accepts(cfg, d, r, length))
            && forall j :: i <= j < r ==> Accepts(cfg, d, j, length)
    decreases length - i
  {
    if i < length && Accepts(cfg, d, i, length) {
      PrefixFromIsFirst(cfg, d, length, i + 1);
    }
  }

  lemma PrefixIsFirst(cfg: Config, d: Draw, length: int)
    ensures var r := AcceptedPrefix(cfg, d, length);
            && r <= Max(0, length) && (r < length ==> !Accepts(cfg, d, r, length))
            && forall j :: 0 <= j < r ==> Accepts(cfg, d, j, length)
  {
    PrefixFromIsFirst(cfg, d, length, 0);
  }

  /** Decay that does not reward later tokens, and no negative probability. */
  predicate Decaying(cfg: Config) {
    cfg.lengthDecay >= 0.0 && cfg.pMin >= 0.0
  }

  lemma Quotients(t: real, a: real, b: real)
    requires t >= 0.0 && 0.0 < a <= b
    ensures t / b <= t / a
  {
    var q, r := t / b, t / a;
    Divides(t, a, r);
    Divides(t, b, q);
    if q > r {
      Products(q, a, b);
      StrictProducts(a, r, q);
    }
  }

  lemma Divides(t: real, b: real, q: real)
    requires b > 0.0 && q == t / b && t >= 0.0
    ensures q * b == t && q >= 0.0
  {
  }

  lemma Products(t: real, a: real, b: real)
    requires t >= 0.0 && a <= b
    ensures t * a <= t * b
  {
  }

  lemma StrictProducts(t: real, a: real, b: real)
    requires t > 0.0 && a < b
    ensures t * a < t * b
  {
  }

  lemma LessDecayed(p: real, decay: real, f: real, g: real)
    requires p >= 0.0 && decay >= 0.0 && g <= f
    ensures Decayed(p, decay, f) <= Decayed(p, decay, g)
  {
    Products(decay, g, f);
    Products(p, 1.0 - decay * f, 1.0 - decay * g);
  }

  lemma SmallerFraction(token: nat, short: int, long: int)
    requires short <= long
    ensures Fraction(token, long) <= Fraction(token, short)
  {
    Quotients(token as real, Max(1, short - 1) as real, Max(1, long - 1) as real);
  }

  /** A token is at least as likely in a longer draft. */
  lemma LongerIsLikelier(cfg: Config, d: Draw, token: nat, short: int, long: int)
    requires Decaying(cfg) && short <= long
    ensures AcceptProbability(cfg, d, token, short) <= AcceptProbability(cfg, d, token, long)
  {
    hide Fraction, Decayed;
    SmallerFraction(token, short, long);
    LessDecayed(Start(cfg, d), cfg.lengthDecay, Fraction(token, short), Fraction(token, long));
  }

  /** The accepted prefix grows with the draft. */
  lemma LongerAcceptsMore(cfg: Config, d: Draw, short: int, long: int)
    requires Decaying(cfg) && short <= long
    ensures AcceptedPrefix(cfg, d, short) <= AcceptedPrefix(cfg, d, long)
  {
    var r, r' := AcceptedPrefix(cfg, d, short), AcceptedPrefix(cfg, d, long);
    PrefixIsFirst(cfg, d, short);
    PrefixIsFirst(cfg, d, long);
    if r' < r {
      assert Accepts(cfg, d, r', short) && !Accepts(cfg, d, r', long);
      hide AcceptProbability, AcceptedPrefix;
      LongerIsLikelier(cfg, d, r', short, long);
    }
  }

  // Pre-verification ----------------------------------------------------------------------------------

  /** The tokens pre-verification looks at, how many of them it accepts, and the draft it leaves. */
  function PreverifyLength(cfg: Config, k: int): int {
    Min(cfg.tvcPreverifyLen, k - 1)
  }

  function Preverified(cfg: Config, d: Draw, k: int): nat {
    AcceptedPrefix(cfg, d, PreverifyLength(cfg, k))
  }

  predicate Rejects(cfg: Config, d: Draw, k: int) {
    Preverified(cfg, d, k) < PreverifyLength(cfg, k)
  }

  function Truncated(cfg: Config, d: Draw, k: int): int {
    if Rejects(cfg, d, k) then Max(1, Min(k, Preverified(cfg, d, k) + 1)) else k
  }

  /** A rejected pre-verification leaves a shorter draft that still shows a rejection, and commits no more than
      the whole draft would have. */
  lemma TruncationIsConservative(cfg: Config, d: Draw, k: int)
    requires Decaying(cfg) && Rejects(cfg, d, k)
    ensures var k' := Truncated(cfg, d, k);
            && k' < k && k' == Preverified(cfg, d, k) + 1 && AcceptedPrefix(cfg, d, k') < k'
            && AcceptedPrefix(cfg, d, k') <= AcceptedPrefix(cfg, d, k)
  {
    hide AcceptedPrefix;
    LongerAcceptsMore(cfg, d, Truncated(cfg, d, k), PreverifyLength(cfg, k));
    LongerAcceptsMore(cfg, d, Truncated(cfg, d, k), k);
  }

  /** The whole draft stops where pre-verification did exactly if it too rejects the token found there, which
      it accepts with a probability at least as high. */
  lemma SuffixIsLostIff(cfg: Config, d: Draw, k: int)
    requires Decaying(cfg) && Rejects(cfg, d, k)
    ensures AcceptedPrefix(cfg, d, k) <= Preverified(cfg, d, k) <==> !Accepts(cfg, d, Preverified(cfg, d, k), k)
  {
    hide AcceptedPrefix, Accepts;
    LongerAcceptsMore(cfg, d, PreverifyLength(cfg, k), k);
    PrefixIsFirst(cfg, d, k);
  }

  /** Without decay the length of the draft plays no part, so nothing that would have been committed is cut. */
  lemma NoDecayNoLoss(cfg: Config, d: Draw, k: int)
    requires cfg.lengthDecay == 0.0 && Rejects(cfg, d, k)
    ensures AcceptedPrefix(cfg, d, Truncated(cfg, d, k)) == AcceptedPrefix(cfg, d, k) == Preverified(cfg, d, k)
  {
    var n, v := Preverified(cfg, d, k), PreverifyLength(cfg, k);
    hide AcceptedPrefix, AcceptProbability;
    SamePrefix(cfg, d, v, k, n);
    SamePrefix(cfg, d, v, n + 1, n);
  }

  lemma SamePrefix(cfg: Config, d: Draw, a: int, b: int, n: nat)
    requires cfg.lengthDecay == 0.0 && n == AcceptedPrefix(cfg, d, a) < a && n < b
    ensures AcceptedPrefix(cfg, d, b) == n
  {
    hide AcceptedPrefix, AcceptProbability;
    PrefixIsFirst(cfg, d, a);
    PrefixIsFirst(cfg, d, b);
    var r := AcceptedPrefix(cfg, d, b);
    if r < n {
      assert Accepts(cfg, d, r, a);
      SameProbability(cfg, d, r, a, b);
    } else if n < r {
      assert Accepts(cfg, d, n, b);
      SameProbability(cfg, d, n, a, b);
    }
  }

  lemma SameProbability(cfg: Config, d: Draw, token: nat, a: int, b: int)
    requires cfg.lengthDecay == 0.0
    ensures AcceptProbability(cfg, d, token, a) == AcceptProbability(cfg, d, token, b)
  {
    hide Fraction;
    NothingDecays(Start(cfg, d), Fraction(token, a));
    NothingDecays(Start(cfg, d), Fraction(token, b));
  }

  lemma NothingDecays(p: real, f: real)
    ensures Decayed(p, 0.0, f) == p
  {
    assert 0.0 * f == 0.0;
  }

  // Draft length --------------------------------------------------------------------------------------

  function EdcDraftLength(cfg: Config, entropy: real, recent: real, depth: int): (k: int)
    ensures 1 <= k <= Max(1, cfg.maxDraftLength)
  {
    var m := cfg.maxDraftLength;
    var k0 := if entropy >= cfg.entropyHigh then Max(2, m - 3) else if entropy >= cfg.entropyMid then Max(3, m - 2)
      else m;
    var k1 := if recent < cfg.recentLow then k0 - 1 else k0;
    var k2 := if depth >= cfg.maxLeadingBatches - 1 then k1 - 1 else k1;
    Max(1, Min(m, k2))
  }

  /** More entropy never asks for a longer draft, except with a limit of two tokens and exactly one of the two
      other reasons to shorten it: there the middle band asks for two tokens and the low one for one. */
  lemma MoreEntropyShorterDraft(cfg: Config, low: real, high: real, recent: real, depth: int)
    requires low <= high
    ensures EdcDraftLength(cfg, low, recent, depth) < EdcDraftLength(cfg, high, recent, depth) <==>
              && cfg.maxDraftLength == 2 && low < cfg.entropyMid <= high < cfg.entropyHigh
              && (recent < cfg.recentLow <==> depth < cfg.maxLeadingBatches - 1)
  {
  }

  function VerifyCycles(cfg: Config, k: int): real {
    cfg.verifyBase + cfg.verifyToken * k as real + cfg.verifyContext
  }

  predicate CanPreverify(cfg: Config, entropy: real, k: int, depth: int) {
    && k >= cfg.tvcMinDraftLen && entropy >= cfg.tvcEntropy
    && VerifyCycles(cfg, k) * Max(0, depth - 1) as real
       >= (cfg.preverifyBase + cfg.preverifyToken * PreverifyLength(cfg,
                                                                    k) as real) + (cfg.draftBase + cfg.draftToken * 1.0)
  }

  /** Pre-verification hides in the slack of earlier batches: if it costs anything it needs one, and more of
      them never forbid it. */
  lemma MoreLeadKeepsPreverifying(cfg: Config, entropy: real, k: int, depth: int, more: int)
    requires CanPreverify(cfg, entropy, k, depth)
    ensures cfg.preverifyBase + cfg.preverifyToken * PreverifyLength(cfg, k) as real
            + cfg.draftBase + cfg.draftToken > 0.0 ==>
              depth >= 2
    ensures depth <= more && VerifyCycles(cfg, k) >= 0.0 ==> CanPreverify(cfg, entropy, k, more)
  {
    if depth <= more && VerifyCycles(cfg, k) >= 0.0 {
      Products(VerifyCycles(cfg, k), Max(0, depth - 1) as real, Max(0, more - 1) as real);
    }
  }

  // The replay ----------------------------------------------------------------------------------------

  /** One line of the trace; `planned` is the draft length before pre-verification, which the source forgets. */
  datatype Record = Record(round: nat, entropy: real, draftLength: int, accepted: nat, inserted: bool,
                           prefixAccepted: nat,
                           planned: int)

  datatype Counters = Counters(drafted: int, accepted: int, rejected: int, preverifyTokens: int, preverifyEvents: int,
                               rounds: nat)

  function Accounted(c: Counters, k: int, accepted: int, preverifyTokens: int, preverifyEvents: int): Counters {
    c.(drafted := c.drafted + k, accepted := c.accepted + accepted, rejected := c.rejected + Max(0, k - accepted),
       preverifyTokens := c.preverifyTokens + preverifyTokens, preverifyEvents := c.preverifyEvents + preverifyEvents)
  }

  class ModeStats {
    var draftedTokens: int
    var acceptedTokens: int
    var rejectedTokens: int
    var preverifyTokens: int
    var preverifyEvents: int
    var roundsExecuted: nat

    ghost function Now(): Counters
      reads this
    {
      Counters(draftedTokens, acceptedTokens, rejectedTokens, preverifyTokens, preverifyEvents, roundsExecuted)
    }

    constructor ()
      ensures Now() == Counters(0, 0, 0, 0, 0, 0)
    {
      draftedTokens, acceptedTokens, rejectedTokens, preverifyTokens, preverifyEvents, roundsExecuted := 0, 0, 0, 0, 0,
        0;
    }

    method AccountRound(k: int, accepted: int, preverified: int, events: int)
      modifies this
      ensures Now() == Accounted(old(Now()), k, accepted, preverified, events)
    {
      var rejected := Max(0, k - accepted);
      draftedTokens := draftedTokens + k;
      acceptedTokens := acceptedTokens + accepted;
      rejectedTokens := rejectedTokens + rejected;
      preverifyTokens := preverifyTokens + preverified;
      preverifyEvents := preverifyEvents + events;
    }
  }

  /** The remainder of floor division, whose sign is the divisor's. */
  function FloorMod(a: int, m: int): int
    requires m != 0
  {
    if m > 0 then a % m else -((-a) % (-m))
  }

  function Sum(s: seq<real>): real {
    if s == [] then 0.0 else s[0] + Sum(s[1..])
  }

  /** The slice from -w on: the last w entries, or without the first -w if w is not positive. */
  function Window(recent: seq<real>, w: int): seq<real> {
    if w > 0 then recent[Max(0, |recent| - w)..] else recent[Min(-w, |recent|)..]
  }

  function RecentAcceptance(cfg: Config, recent: seq<real>): real {
    if recent == [] then 1.0
      else Sum(Window(recent, cfg.recentWindow)) / Max(1, |Window(recent, cfg.recentWindow)|) as real
  }

  datatype Sim = Sim(recent: seq<real>, records: seq<Record>, counters: Counters)

  function Depth(cfg: Config, r: nat): int
    requires cfg.maxLeadingBatches != 0
  {
    1 + FloorMod(r, cfg.maxLeadingBatches)
  }

  function FirstLength(cfg: Config, mode: Mode, s: Sim, d: Draw, r: nat): int
    requires cfg.maxLeadingBatches != 0
  {
    if mode.Without? then cfg.maxDraftLength
    else EdcDraftLength(cfg, d.entropy, RecentAcceptance(cfg, s.recent), Depth(cfg, r))
  }

  function Round(cfg: Config, mode: Mode, s: Sim, d: Draw, r: nat): Sim
    requires cfg.maxLeadingBatches != 0
  {
    var k0 := FirstLength(cfg, mode, s, d, r);
    var tvc := mode.Full? && CanPreverify(cfg, d.entropy, k0, Depth(cfg, r));
    var k := if tvc then Truncated(cfg, d, k0) else k0;
    var accepted := AcceptedPrefix(cfg, d, k);
    Sim(if mode.Without? then s.recent else s.recent + [if k != 0 then accepted as real / k as real else 0.0],
        s.records + [Record(r, d.entropy, k, accepted, tvc, if tvc then Preverified(cfg, d, k0) else 0, k0)],
        Accounted(s.counters, k, accepted, if tvc then PreverifyLength(cfg, k0) else 0, if tvc then 1 else 0)
        .(rounds := s.counters.rounds + 1))
  }

  predicate Reached(cfg: Config, c: Counters) {
    cfg.targetAccepted > 0 && c.accepted >= cfg.targetAccepted
  }

  /** The replay from round r on; one draw per round. */
  function Simulated(cfg: Config, mode: Mode, draws: seq<Draw>, s: Sim, r: nat): Sim
    requires cfg.maxLeadingBatches != 0
    decreases |draws| - r
  {
    if r >= |draws| || Reached(cfg, s.counters) then s
    else Simulated(cfg, mode, draws, Round(cfg, mode, s, draws[r], r), r + 1)
  }

  const FRESH := Sim([], [], Counters(0, 0, 0, 0, 0, 0))

  method Average(cfg: Config, recent: seq<real>) returns (a: real)
    ensures a == RecentAcceptance(cfg, recent)
  {
    if recent == [] { return 1.0; }
    var w := Window(recent, cfg.recentWindow);
    a := Sum(w) / Max(1, |w|) as real;
  }

  method SimulateMode(cfg: Config, mode: Mode, draws: seq<Draw>) returns (records: seq<Record>, stats: ModeStats)
    requires cfg.maxLeadingBatches != 0
    ensures fresh(stats)
    ensures records == Simulated(cfg, mode, draws, FRESH, 0).records
            && stats.Now() == Simulated(cfg, mode, draws, FRESH, 0).counters
  {
    hide Round, RecentAcceptance;
    var recent: seq<real> := [];
    records := [];
    stats := new ModeStats();
    for r := 0 to |draws|
      invariant fresh(stats)
      invariant Simulated(cfg, mode, draws, FRESH, 0)
              == Simulated(cfg, mode, draws, Sim(recent, records, stats.Now()), r)
    {
      if cfg.targetAccepted > 0 && stats.acceptedTokens >= cfg.targetAccepted {
        break;
      }
      recent, records := RunRound(cfg, mode, draws[r], r, recent, records, stats);
    }
  }

  /** One round of the loop. */
  method RunRound(cfg: Config, mode: Mode, d: Draw, r: nat, recent: seq<real>, records: seq<Record>, stats: ModeStats)
    returns (recent': seq<real>, records': seq<Record>)
    requires cfg.maxLeadingBatches != 0
    modifies stats
    ensures Sim(recent', records', stats.Now()) == Round(cfg, mode, Sim(recent, records, old(stats.Now())), d, r)
  {
    hide AcceptedPrefix, RecentAcceptance, EdcDraftLength, CanPreverify;
    var depth := 1 + FloorMod(r, cfg.maxLeadingBatches);
    var average := Average(cfg, recent);
    var k := if mode.Without? then cfg.maxDraftLength else EdcDraftLength(cfg, d.entropy, average, depth);
    var planned := k;
    var inserted, prefixAccepted, preverified := false, 0, 0;
    if mode.Full? && CanPreverify(cfg, d.entropy, k, depth) {
      preverified := Min(cfg.tvcPreverifyLen, k - 1);
      prefixAccepted := CountAcceptedPrefix(cfg, d, preverified);
      inserted := true;
      if prefixAccepted < preverified {
        k := Max(1, Min(k, prefixAccepted + 1));
      }
    }
    var accepted := CountAcceptedPrefix(cfg, d, k);
    stats.AccountRound(k, accepted, preverified, if inserted then 1 else 0);
    stats.roundsExecuted := stats.roundsExecuted + 1;
    recent' := if mode.Without? then recent else recent + [if k != 0 then accepted as real / k as real else 0.0];
    records' := records + [Record(r, d.entropy, k, accepted, inserted, prefixAccepted, planned)];
  }

  // What every replay keeps ---------------------------------------------------------------------------

  function Drafted(rs: seq<Record>): int {
    if rs == [] then 0 else Drafted(rs[..|rs| - 1]) + rs[|rs| - 1].draftLength
  }

  function Committed(rs: seq<Record>): int {
    if rs == [] then 0 else Committed(rs[..|rs| - 1]) + rs[|rs| - 1].accepted
  }

  /** The counters are those of the records; the tokens balance unless a negative draft length was asked for;
      and, if drafts decay, a pre-verification that rejected something left a draft that shows a rejection. */
  ghost predicate Inv(cfg: Config, mode: Mode, s: Sim) {
    && s.counters.rounds == |s.records|
    && s.counters.drafted == Drafted(s.records) && s.counters.accepted == Committed(s.records)
    && (if mode.Without? && cfg.maxDraftLength < 0
        then s.counters.accepted == 0 == s.counters.rejected
          && s.counters.drafted == cfg.maxDraftLength * s.counters.rounds
        else s.counters.accepted + s.counters.rejected == s.counters.drafted)
    && (Decaying(cfg) ==> forall rec :: rec in s.records ==> ShowsRejection(cfg, rec))
  }

  /** A pre-verification that rejected something left one token more than it accepted, not all of them committed. */
  predicate ShowsRejection(cfg: Config, rec: Record) {
    && rec.draftLength <= rec.planned
    && (rec.inserted && rec.prefixAccepted < PreverifyLength(cfg, rec.planned) ==>
          rec.accepted < rec.draftLength == rec.prefixAccepted + 1 < rec.planned)
  }

  lemma RoundShowsRejection(cfg: Config, mode: Mode, s: Sim, d: Draw, r: nat)
    requires cfg.maxLeadingBatches != 0 && Decaying(cfg)
    ensures var t := Round(cfg, mode, s, d, r); ShowsRejection(cfg, t.records[|t.records| - 1])
  {
    hide AcceptedPrefix, RecentAcceptance, EdcDraftLength, CanPreverify;
    var k0 := FirstLength(cfg, mode, s, d, r);
    if Rejects(cfg, d, k0) {
      TruncationIsConservative(cfg, d, k0);
    }
  }

  lemma RoundBalances(cfg: Config, mode: Mode, s: Sim, d: Draw, r: nat)
    requires cfg.maxLeadingBatches != 0 && Inv(cfg, mode, s)
    ensures Inv(cfg, mode, Round(cfg, mode, s, d, r))
  {
    var t := Round(cfg, mode, s, d, r);
    var rec := t.records[|t.records| - 1];
    assert t.records[..|t.records| - 1] == s.records;
    PrefixIsFirst(cfg, d, rec.draftLength);
    if Decaying(cfg) {
      RoundShowsRejection(cfg, mode, s, d, r);
    }
    hide AcceptedPrefix, RecentAcceptance, EdcDraftLength, CanPreverify, ShowsRejection;
  }

  lemma {:induction false} SimulatedKeeps(cfg: Config, mode: Mode, draws: seq<Draw>, s: Sim, r: nat)
    requires cfg.maxLeadingBatches != 0 && Inv(cfg, mode, s)
    ensures Inv(cfg, mode, Simulated(cfg, mode, draws, s, r))
    decreases |draws| - r
  {
    if r < |draws| && !Reached(cfg, s.counters) {
      hide Round, Inv;
      RoundBalances(cfg, mode, s, draws[r], r);
      SimulatedKeeps(cfg, mode, draws, Round(cfg, mode, s, draws[r], r), r + 1);
    }
  }

  /** Over every replay: accepted and rejected tokens make up the drafted ones exactly when no negative draft
      length was ever asked for, and every rejecting pre-verification is confirmed by its round. */
  lemma EveryReplayBalances(cfg: Config, mode: Mode, draws: seq<Draw>)
    requires cfg.maxLeadingBatches != 0
    ensures var t := Simulated(cfg, mode, draws, FRESH, 0);
            && t.counters.drafted == Drafted(t.records) && t.counters.accepted == Committed(t.records)
            && (t.counters.accepted + t.counters.rejected == t.counters.drafted <==>
                  !mode.Without? || cfg.maxDraftLength >= 0 || t.records == [])
            && (Decaying(cfg) ==> forall rec :: rec in t.records ==> ShowsRejection(cfg, rec))
  {
    SimulatedKeeps(cfg, mode, draws, FRESH, 0);
    hide Simulated, ShowsRejection, Decaying;
    var t := Simulated(cfg, mode, draws, FRESH, 0);
    if mode.Without? && cfg.maxDraftLength < 0 && t.records != [] {
      Negative(cfg.maxDraftLength, |t.records|);
    }
  }

  lemma Negative(a: int, n: int)
    requires a < 0 < n
    ensures a * n < 0
  {
  }

  // Two rounds worked out -----------------------------------------------------------------------------

  /** A configuration with a decay and a pre-verified prefix, all else at its plainest. */
  function Plain(decay: real, preverify: int): Config {
    Config(6, 0, decay, 0.0, 4.0, 5.0, 8, 0.42, 4, 4.45, preverify, 3, 2.4, 0.34, 0.72, 0.65, 1.0, 0.55, 0.62)
  }

  /** Whether a token is accepted, worked out: p to start with, and q at this fraction of the draft. */
  lemma Evaluate(cfg: Config, d: Draw, token: nat, length: int, decay: real, p: real, fraction: real, q: real)
    requires cfg.pMin == 0.0 && cfg.lengthDecay == decay && Start(cfg, d) == p
    requires length >= 2 && fraction * (length - 1) as real == token as real
    requires q == p * (1.0 - decay * fraction) && 0.0 <= q <= 1.0
    ensures Accepts(cfg, d, token, length) <==> d.uniform(token) <= q
  {
    IsQuotient(token as real, (length - 1) as real, fraction);
    assert Fraction(token, length) == fraction;
    hide Fraction, Start;
  }

  lemma IsQuotient(t: real, b: real, q: real)
    requires b > 0.0 && q * b == t
    ensures t / b == q
  {
  }

  lemma ZeroIsAccepted(cfg: Config, d: Draw, token: nat, length: int)
    requires cfg.pMin >= 0.0 && d.uniform(token) == 0.0
    ensures Accepts(cfg, d, token, length)
  {
    hide Fraction, Decayed;
  }

  /** A certain round, and one in the middle band of entropy whose token 1 is drawn at `u`. */
  const CALM := Draw(0.0, 1.0, i => 0.0)
  function Doubtful(scaled: real, u: real): Draw { Draw(4.5, scaled, i => if i == 1 then u else 0.0) }

  lemma AllAccepted(decay: real)
    ensures AcceptedPrefix(Plain(decay, 3), CALM, 6) == 6
  {
    hide AcceptedPrefix, Accepts;
    PrefixIsFirst(Plain(decay, 3), CALM, 6);
    forall i: nat | i < 6
      ensures Accepts(Plain(decay, 3), CALM, i, 6)
    {
      ZeroIsAccepted(Plain(decay, 3), CALM, i, 6);
    }
  }

  lemma CalmRoundPlans(decay: real, mode: Mode)
    requires !mode.Without?
    ensures var cfg := Plain(decay, 3);
            FirstLength(cfg, mode, FRESH, CALM, 0) == 6 && !CanPreverify(cfg, CALM.entropy, 6, Depth(cfg, 0))
  {
    hide VerifyCycles;
  }

  lemma CalmRound(decay: real, mode: Mode)
    requires !mode.Without?
    ensures var s := Round(Plain(decay, 3), mode, FRESH, CALM, 0);
            s.recent == [1.0] && |s.records| == 1 && s.counters.rounds == 1
  {
    hide AcceptedPrefix, FirstLength, CanPreverify, Truncated, Preverified;
    AllAccepted(decay);
    CalmRoundPlans(decay, mode);
    assert FRESH.recent + [1.0] == [1.0];
  }

  /** In the second round four tokens are planned, and three of them can be pre-verified. */
  lemma SecondRoundPlans(decay: real, mode: Mode, s: Sim, d: Draw)
    requires !mode.Without? && s.recent == [1.0] && d.entropy == 4.5
    ensures FirstLength(Plain(decay, 3), mode, s, d, 1) == 4 && CanPreverify(Plain(decay, 3), 4.5, 4, 2)
    ensures PreverifyLength(Plain(decay, 3), 4) == 3 && Depth(Plain(decay, 3), 1) == 2
  {
    assert Window([1.0], 8) == [1.0] && [1.0][1..] == [] && Sum([1.0]) == 1.0;
    assert RecentAcceptance(Plain(decay, 3), s.recent) == 1.0;
  }

  lemma TwoRounds(cfg: Config, mode: Mode, d: Draw)
    requires cfg.maxLeadingBatches != 0 && cfg.targetAccepted == 0
    ensures Simulated(cfg, mode, [CALM, d], FRESH, 0) == Round(cfg, mode, Round(cfg, mode, FRESH, CALM, 0), d, 1)
  {
    hide Round;
    var s := Round(cfg, mode, FRESH, CALM, 0);
    assert Simulated(cfg, mode, [CALM, d], s, 1) == Simulated(cfg, mode, [CALM, d], Round(cfg, mode, s, d, 1), 2);
  }

  /** What the second round records without pre-verification and with it. */
  lemma SecondRecords(decay: real, d: Draw, whole: nat, prefix: nat, kept: nat)
    requires d.entropy == 4.5
    requires var cfg := Plain(decay, 3);
             && AcceptedPrefix(cfg, d, 4) == whole && AcceptedPrefix(cfg, d, 3) == prefix < 3
             && AcceptedPrefix(cfg, d, prefix + 1) == kept
    ensures var edc := Simulated(Plain(decay, 3), EdcOnly, [CALM, d], FRESH, 0).records;
            |edc| == 2 && edc[1] == Record(1, 4.5, 4, whole, false, 0, 4)
    ensures var full := Simulated(Plain(decay, 3), Full, [CALM, d], FRESH, 0).records;
            |full| == 2 && full[1] == Record(1, 4.5, prefix + 1, kept, true, prefix, 4)
  {
    var cfg := Plain(decay, 3);
    hide Simulated, AcceptedPrefix, RecentAcceptance, EdcDraftLength, CanPreverify;
    TwoRounds(cfg, EdcOnly, d);
    TwoRounds(cfg, Full, d);
    CalmRound(decay, EdcOnly);
    CalmRound(decay, Full);
    SecondRoundPlans(decay, EdcOnly, Round(cfg, EdcOnly, FRESH, CALM, 0), d);
    SecondRoundPlans(decay, Full, Round(cfg, Full, FRESH, CALM, 0), d);
  }

  /** The rejected prefix does not prove that the rest cannot be committed. With decay a token may be rejected in
      the short prefix and accepted in the long draft: in the second round of this replay the whole draft of four
      tokens would have been committed, and truncation leaves one. */
  lemma CommittableSuffixIsCut()
    ensures var edc := Simulated(Plain(0.5, 3), EdcOnly, [CALM, Doubtful(1.0, 0.8)], FRESH, 0).records;
            |edc| == 2 && edc[1] == Record(1, 4.5, 4, 4, false, 0, 4)
    ensures var full := Simulated(Plain(0.5, 3), Full, [CALM, Doubtful(1.0, 0.8)], FRESH, 0).records;
            |full| == 2 && full[1] == Record(1, 4.5, 2, 1, true, 1, 4)
  {
    var cfg, d := Plain(0.5, 3), Doubtful(1.0, 0.8);
    hide Simulated;
    Evaluate(cfg, d, 1, 3, 0.5, 1.0, 0.5, 0.75);
    Evaluate(cfg, d, 1, 2, 0.5, 1.0, 1.0, 0.5);
    Evaluate(cfg, d, 1, 4, 0.5, 1.0, 1.0 / 3.0, 5.0 / 6.0);
    Prefixes(cfg, d);
    SecondRecords(0.5, d, 4, 1, 1);
  }

  /** A draw that accepts every token but perhaps token 1. */
  lemma Prefixes(cfg: Config, d: Draw)
    requires cfg.pMin >= 0.0 && forall i: nat :: i != 1 ==> d.uniform(i) == 0.0
    ensures forall n :: 2 <= n <= 4 ==> AcceptedPrefix(cfg, d, n) == if Accepts(cfg, d, 1, n) then n else 1
  {
    hide Accepts, AcceptedPrefix;
    forall n: int | 2 <= n <= 4
      ensures AcceptedPrefix(cfg, d, n) == if Accepts(cfg, d, 1, n) then n else 1
    {
      PrefixIsFirst(cfg, d, n);
      ZeroIsAccepted(cfg, d, 0, n);
      ZeroIsAccepted(cfg, d, 2, n);
      ZeroIsAccepted(cfg, d, 3, n);
    }
  }

  /** With a negative decay truncation is not conservative: in the second round of this replay the short draft is
      accepted whole, which shows no rejection, and commits more than the long one. */
  lemma NegativeDecayCommitsMore()
    ensures var edc := Simulated(Plain(-1.0, 3), EdcOnly, [CALM, Doubtful(0.25, 0.4)], FRESH, 0).records;
            |edc| == 2 && edc[1] == Record(1, 4.5, 4, 1, false, 0, 4)
    ensures var full := Simulated(Plain(-1.0, 3), Full, [CALM, Doubtful(0.25, 0.4)], FRESH, 0).records;
            |full| == 2 && full[1] == Record(1, 4.5, 2, 2, true, 1, 4)
  {
    var cfg, d := Plain(-1.0, 3), Doubtful(0.25, 0.4);
    hide Simulated;
    Evaluate(cfg, d, 1, 3, -1.0, 0.25, 0.5, 0.375);
    Evaluate(cfg, d, 1, 2, -1.0, 0.25, 1.0, 0.5);
    Evaluate(cfg, d, 1, 4, -1.0, 0.25, 1.0 / 3.0, 1.0 / 3.0);
    Prefixes(cfg, d);
    SecondRecords(-1.0, d, 1, 1, 2);
  }
}
