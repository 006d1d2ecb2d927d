/** What every round of a replay records, in terms of its draw and of the rounds before it.
    scripts/run_etcc_trace_replay.py:111-167 and 225-275. */
module ReplayHistory {
  import Numbers
  import opened Replay

  // Draft lengths -------------------------------------------------------------------------------------

  /** Tokens fewer for high entropy: none below the middle band, two in it and three above it. */
  function Cut(cfg: Config, entropy: real): int {
    if entropy < cfg.entropyMid && entropy < cfg.entropyHigh then 0 else if entropy < cfg.entropyHigh then 2 else 3
  }

  /** The other reasons for a token fewer: poor recent acceptance, and no batch left to lead by. */
  function Reasons(cfg: Config, recent: real, depth: int): int {
    (if recent < cfg.recentLow then 1 else 0) + if depth < cfg.maxLeadingBatches - 1 then 0 else 1
  }

  /** With a limit of five tokens or more the draft is as much shorter as there are reasons, but one token at least;
      with less, high entropy leaves no fewer than two tokens, or three in the middle band, before the other reasons. */
  lemma DraftLengthIs(cfg: Config, entropy: real, recent: real, depth: int)
    ensures var k, m, c := EdcDraftLength(cfg, entropy, recent, depth), cfg.maxDraftLength, Cut(cfg, entropy);
            var r := Reasons(cfg, recent, depth);
            && (m >= 5 ==> k == Max(1, m - c - r))
            && (m == 4 ==> k == if c == 0 then 4 - r else if c == 2 then 3 - r else Max(1, 2 - r))
            && (m == 3 ==> k == if c <= 2 then 3 - r else Max(1, 2 - r))
            && (m == 2 ==> k == if c == 2 then Min(2, 3 - r) else Max(1, 2 - r))
            && (m <= 1 ==> k == 1)
  {
  }

  // Acceptance ----------------------------------------------------------------------------------------

  /** The acceptance probability goes from that of the first token down to the decayed one of the last, and is never
      below p_min nor, unless that is, above one. */
  lemma EndsOfDraft(cfg: Config, d: Draw, length: int)
    requires length >= 2
    ensures AcceptProbability(cfg, d, 0, length) == MaxReal(cfg.pMin, MinReal(1.0, d.scaled))
    ensures AcceptProbability(cfg, d, length - 1, length)
         == MaxReal(cfg.pMin, MinReal(1.0, AcceptProbability(cfg, d, 0, length) * (1.0 - cfg.lengthDecay)))
  {
    IsQuotient(0.0, (length - 1) as real, 0.0);
    IsQuotient((length - 1) as real, (length - 1) as real, 1.0);
    NoDecayAtAll(Start(cfg, d), cfg.lengthDecay);
  }

  lemma NoDecayAtAll(p: real, decay: real)
    ensures Decayed(p, decay, 0.0) == p && Decayed(p, decay, 1.0) == p * (1.0 - decay)
  {
    assert decay * 0.0 == 0.0 && decay * 1.0 == decay;
  }

  lemma ProbabilityInRange(cfg: Config, d: Draw, token: nat, length: int)
    ensures cfg.pMin <= AcceptProbability(cfg, d, token, length) <= MaxReal(1.0, cfg.pMin)
  {
    hide Fraction, Start, Decayed;
  }

  /** Between the ends it is linear: equal steps of the token take equal steps of the probability, before it is cut
      off. */
  lemma LinearDecay(p: real, decay: real, token: nat, length: int)
    requires length >= 2
    ensures (Decayed(p, decay, Fraction(token, length)) - Decayed(p, decay, Fraction(token + 1, length)))
            * (length - 1) as real == p * decay
  {
    var n, f, g := (length - 1) as real, Fraction(token, length), Fraction(token + 1, length);
    Divides(token as real, n, f);
    Divides((token + 1) as real, n, g);
    hide Fraction;
    Slope(p, decay, f, g, n);
  }

  lemma Slope(p: real, decay: real, f: real, g: real, n: real)
    requires (g - f) * n == 1.0
    ensures (p * (1.0 - decay * f) - p * (1.0 - decay * g)) * n == p * decay
  {
    assert p * (1.0 - decay * f) - p * (1.0 - decay * g) == p * (decay * (g - f)) by { Spread(p, decay, f, g); }
    assert p * (decay * (g - f)) * n == p * decay * ((g - f) * n) by { Group(p, decay, g - f, n); }
  }

  lemma Spread(p: real, d: real, f: real, g: real)
    ensures p * (1.0 - d * f) - p * (1.0 - d * g) == p * (d * (g - f))
  {
  }

  lemma Group(p: real, d: real, x: real, n: real)
    ensures p * (d * x) * n == p * d * (x * n)
  {
  }

  /** The recent acceptance is the mean of the last `recentWindow` rounds, or of all if there were fewer. */
  lemma RecentIsMean(cfg: Config, recent: seq<real>)
    requires cfg.recentWindow > 0
    ensures recent == [] ==> RecentAcceptance(cfg, recent) == 1.0
    ensures recent != [] ==>
              var n := Min(cfg.recentWindow, |recent|);
              RecentAcceptance(cfg, recent) * n as real == Sum(recent[|recent| - n..])
  {
    if recent != [] {
      var n := Min(cfg.recentWindow, |recent|);
      assert Window(recent, cfg.recentWindow) == recent[|recent| - n..];
      Mean(Sum(recent[|recent| - n..]), n as real);
    }
  }

  lemma Mean(total: real, n: real)
    requires n > 0.0
    ensures total / n * n == total
  {
  }

  /** The lead cycles through one to the number of leading batches. */
  lemma DepthCycles(cfg: Config, r: nat)
    requires cfg.maxLeadingBatches > 0
    ensures Depth(cfg, 0) == 1 && 1 <= Depth(cfg, r) <= cfg.maxLeadingBatches
    ensures Depth(cfg, r + 1) == if Depth(cfg, r) == cfg.maxLeadingBatches then 1 else Depth(cfg, r) + 1
  {
    var m := cfg.maxLeadingBatches;
    var q := r / m;
    assert r == q * m + r % m;
    if r % m == m - 1 {
      assert (q + 1) * m == q * m + m;
      Numbers.RemainderUnique(r + 1, m, q + 1, 0);
    } else {
      Numbers.RemainderUnique(r + 1, m, q, r % m + 1);
    }
  }

  /** A draft of enough tokens and enough entropy is pre-verified exactly if verifying it, once for every batch that is
      ahead of it, takes at least as long as pre-verifying its prefix and drafting one token. */
  lemma PreverifiedIff(cfg: Config, entropy: real, k: int, depth: nat)
    requires depth >= 1
    ensures var prefix := Min(cfg.tvcPreverifyLen, k - 1);
            var needed := cfg.preverifyBase + cfg.preverifyToken * prefix as real + cfg.draftBase + cfg.draftToken;
            var slack := (cfg.verifyBase + cfg.verifyToken * k as real + cfg.verifyContext) * (depth - 1) as real;
            CanPreverify(cfg, entropy, k, depth) <==>
              k >= cfg.tvcMinDraftLen && entropy >= cfg.tvcEntropy && slack >= needed
  {
  }

  // Rounds --------------------------------------------------------------------------------------------

  function Rate(rec: Record): real {
    if rec.draftLength != 0 then rec.accepted as real / rec.draftLength as real else 0.0
  }

  /** The acceptance of all rounds so far. */
  function Rates(recs: seq<Record>): seq<real> {
    seq(|recs|, i requires 0 <= i < |recs| => Rate(recs[i]))
  }

  /** The draft length that is planned behind these rounds, and whether it is pre-verified. */
  function PlannedNext(cfg: Config, mode: Mode, recs: seq<Record>, entropy: real): int
    requires cfg.maxLeadingBatches != 0
  {
    if mode.Without? then cfg.maxDraftLength
    else EdcDraftLength(cfg, entropy, RecentAcceptance(cfg, Rates(recs)), Depth(cfg, |recs|))
  }

  /** What a round records, given the rounds before it. */
  ghost predicate Follows(cfg: Config, mode: Mode, recs: seq<Record>, d: Draw, rec: Record)
    requires cfg.maxLeadingBatches != 0
  {
    && rec.round == |recs| && rec.entropy == d.entropy
    && rec.planned == PlannedNext(cfg, mode, recs, d.entropy)
    && (rec.inserted <==> mode.Full? && CanPreverify(cfg, d.entropy, rec.planned, Depth(cfg, |recs|)))
    && rec.prefixAccepted
       == (if rec.inserted then AcceptedPrefix(cfg, d, Min(cfg.tvcPreverifyLen, rec.planned - 1)) else 0)
    && rec.draftLength
       == (if rec.inserted && rec.prefixAccepted < Min(cfg.tvcPreverifyLen, rec.planned - 1)
           then rec.prefixAccepted + 1 else rec.planned)
    && rec.accepted == AcceptedPrefix(cfg, d, rec.draftLength)
  }

  /** The replay so far: every round follows from those before it, and none came after the target was reached. */
  ghost predicate Told(cfg: Config, mode: Mode, draws: seq<Draw>, s: Sim)
    requires cfg.maxLeadingBatches != 0
  {
    && |s.records| <= |draws|
    && s.recent == (if mode.Without? then [] else Rates(s.records))
    && (forall i :: 0 <= i < |s.records| ==> Follows(cfg, mode, s.records[..i], draws[i], s.records[i]))
    && (forall i :: 0 <= i < |s.records| && cfg.targetAccepted > 0 ==>
          Committed(s.records[..i]) < cfg.targetAccepted)
  }

  lemma RatesAppend(recs: seq<Record>, rec: Record)
    ensures Rates(recs + [rec]) == Rates(recs) + [Rate(rec)]
  {
  }

  lemma RoundFollows(cfg: Config, mode: Mode, s: Sim, d: Draw)
    requires cfg.maxLeadingBatches != 0 && s.recent == if mode.Without? then [] else Rates(s.records)
    ensures var t := Round(cfg, mode, s, d, |s.records|);
            && |t.records| == |s.records| + 1 && t.records[..|s.records|] == s.records
            && Follows(cfg, mode, s.records, d, t.records[|s.records|])
            && t.recent == if mode.Without? then [] else Rates(t.records)
  {
    hide AcceptedPrefix, RecentAcceptance, EdcDraftLength, CanPreverify, Depth, Rates;
    var t := Round(cfg, mode, s, d, |s.records|);
    RatesAppend(s.records, t.records[|s.records|]);
    assert t.records == s.records + [t.records[|s.records|]];
  }

  lemma RoundTold(cfg: Config, mode: Mode, draws: seq<Draw>, s: Sim)
    requires cfg.maxLeadingBatches != 0 && Told(cfg, mode, draws, s) && |s.records| < |draws|
    requires cfg.targetAccepted > 0 ==> Committed(s.records) < cfg.targetAccepted
    ensures Told(cfg, mode, draws, Round(cfg, mode, s, draws[|s.records|], |s.records|))
  {
    hide Follows, Rates, Committed, Round;
    var n := |s.records|;
    var t := Round(cfg, mode, s, draws[n], n);
    RoundFollows(cfg, mode, s, draws[n]);
    forall i | 0 <= i < |t.records|
      ensures Follows(cfg, mode, t.records[..i], draws[i], t.records[i])
      ensures cfg.targetAccepted > 0 ==> Committed(t.records[..i]) < cfg.targetAccepted
    {
      assert t.records[..i] == s.records[..i];
      if i < n {
        assert t.records[i] == t.records[..n][i] == s.records[i];
      } else {
        assert s.records[..n] == s.records;
      }
    }
  }

  lemma {:induction false} RunTold(cfg: Config, mode: Mode, draws: seq<Draw>, s: Sim)
    requires cfg.maxLeadingBatches != 0 && Told(cfg, mode, draws, s) && Inv(cfg, mode, s)
    ensures var t := Simulated(cfg, mode, draws, s, |s.records|);
            && Told(cfg, mode, draws, t)
            && (|t.records| == |draws| || (cfg.targetAccepted > 0 && Committed(t.records) >= cfg.targetAccepted))
    decreases |draws| - |s.records|
  {
    hide Round, Inv, Told;
    var n := |s.records|;
    CountersOf(cfg, mode, s);
    NoMore(cfg, mode, draws, s);
    if n < |draws| && !Reached(cfg, s.counters) {
      RoundTold(cfg, mode, draws, s);
      RoundBalances(cfg, mode, s, draws[n], n);
      var u := Round(cfg, mode, s, draws[n], n);
      OneMoreRecord(cfg, mode, s, draws[n], n);
      RunTold(cfg, mode, draws, u);
    }
  }

  lemma OneMoreRecord(cfg: Config, mode: Mode, s: Sim, d: Draw, r: nat)
    requires cfg.maxLeadingBatches != 0
    ensures |Round(cfg, mode, s, d, r).records| == |s.records| + 1
  {
    hide AcceptedPrefix, RecentAcceptance, EdcDraftLength, CanPreverify;
  }

  lemma CountersOf(cfg: Config, mode: Mode, s: Sim)
    requires Inv(cfg, mode, s)
    ensures s.counters.accepted == Committed(s.records)
  {
    hide ShowsRejection, Drafted, Committed;
  }

  lemma NoMore(cfg: Config, mode: Mode, draws: seq<Draw>, s: Sim)
    requires cfg.maxLeadingBatches != 0 && Told(cfg, mode, draws, s)
    ensures |s.records| <= |draws|
  {
    hide Follows, Rates, Committed;
  }

  // Counters of pre-verification ----------------------------------------------------------------------

  function Inserted(rs: seq<Record>): nat {
    if rs == [] then 0 else Inserted(rs[..|rs| - 1]) + if rs[|rs| - 1].inserted then 1 else 0
  }

  /** The tokens of the prefixes that were pre-verified. */
  function LookedAt(cfg: Config, rs: seq<Record>): int {
    if rs == [] then 0
    else
      var rec := rs[|rs| - 1];
      LookedAt(cfg, rs[..|rs| - 1]) + if rec.inserted then Min(cfg.tvcPreverifyLen, rec.planned - 1) else 0
  }

  ghost predicate Counting(cfg: Config, s: Sim) {
    s.counters.preverifyEvents == Inserted(s.records) && s.counters.preverifyTokens == LookedAt(cfg, s.records)
  }

  lemma RoundCounts(cfg: Config, mode: Mode, s: Sim, d: Draw, r: nat)
    requires cfg.maxLeadingBatches != 0 && Counting(cfg, s)
    ensures Counting(cfg, Round(cfg, mode, s, d, r))
  {
    hide AcceptedPrefix, RecentAcceptance, EdcDraftLength, CanPreverify, Depth;
    var t := Round(cfg, mode, s, d, r);
    assert t.records[..|t.records| - 1] == s.records;
  }

  lemma {:induction false} RunCounts(cfg: Config, mode: Mode, draws: seq<Draw>, s: Sim, r: nat)
    requires cfg.maxLeadingBatches != 0 && Counting(cfg, s)
    ensures Counting(cfg, Simulated(cfg, mode, draws, s, r))
    decreases |draws| - r
  {
    if r < |draws| && !Reached(cfg, s.counters) {
      hide Round, Counting;
      RoundCounts(cfg, mode, s, draws[r], r);
      RunCounts(cfg, mode, draws, Round(cfg, mode, s, draws[r], r), r + 1);
    }
  }

  /** Over every replay the counters are the number of pre-verified rounds and the tokens those looked at, whatever
      was cut off afterwards. */
  lemma PreverificationsCounted(cfg: Config, mode: Mode, draws: seq<Draw>)
    requires cfg.maxLeadingBatches != 0
    ensures var t := Simulated(cfg, mode, draws, FRESH, 0);
            && t.counters.preverifyEvents == Inserted(t.records)
            && t.counters.preverifyTokens == LookedAt(cfg, t.records)
  {
    RunCounts(cfg, mode, draws, FRESH, 0);
  }

  /** Every replay: each round records what its draw makes of the draft length planned from the acceptance of the
      rounds before it, and the replay stops at the first round by which the target is reached, or when it runs out of
      rounds. */
  lemma EveryRecordFollows(cfg: Config, mode: Mode, draws: seq<Draw>)
    requires cfg.maxLeadingBatches != 0
    ensures var t := Simulated(cfg, mode, draws, FRESH, 0);
            && |t.records| <= |draws|
            && (forall i :: 0 <= i < |t.records| ==> Follows(cfg, mode, t.records[..i], draws[i], t.records[i]))
            && (forall i :: 0 <= i < |t.records| && cfg.targetAccepted > 0 ==>
                  Committed(t.records[..i]) < cfg.targetAccepted)
            && (|t.records| == |draws| || (cfg.targetAccepted > 0 && Committed(t.records) >= cfg.targetAccepted))
  {
    assert Rates([]) == [];
    assert Told(cfg, mode, draws, FRESH) && Inv(cfg, mode, FRESH);
    hide Follows, Simulated, Inv;
    RunTold(cfg, mode, draws, FRESH);
  }
}
