/** What the coordinator's counters count, over whole runs: ONNXim/src/SSRC.h:84-160. */
module SsrcLedger {
  import opened Numbers
  import opened Pow2s
  import opened Ssrc

  datatype Kind = Decided | Accepted | OverLimit | Committed | Discarded | Partial | BypassedWrite

  /** The event is of this kind. */
  predicate Is(cfg: Config, s: State, e: Event, kind: Kind) {
    match kind
    case Decided => e.Defer? && cfg.enable
    case Accepted => AboveThreshold(cfg, e) && s.resident + e.planned * cfg.bytesPerToken <= cfg.limit
    case OverLimit => AboveThreshold(cfg, e) && s.resident + e.planned * cfg.bytesPerToken > cfg.limit
    case Committed => Settles(cfg, s, e) && 0 < e.accepted && e.length <= e.accepted
    case Discarded => Settles(cfg, s, e) && e.accepted == 0
    case Partial => Settles(cfg, s, e) && 0 < e.accepted < e.length
    case BypassedWrite => e.Note? && cfg.enable && e.id in s.active
  }

  predicate AboveThreshold(cfg: Config, e: Event) {
    e.Defer? && cfg.enable && e.hint.Finite? && cfg.threshold < e.hint.value
  }

  /** The answer to the round that was deferred last for this request. */
  predicate Settles(cfg: Config, s: State, e: Event) {
    e.Verify? && cfg.enable && e.id in s.active && s.active[e.id].specRound == e.specRound
  }

  function Counter(st: Stats, kind: Kind): nat {
    match kind
    case Decided => st.decisions
    case Accepted => st.deferred
    case OverLimit => st.refused
    case Committed => st.committed
    case Discarded => st.discarded
    case Partial => st.partially
    case BypassedWrite => st.bypassedWrites
  }

  lemma StepCounts(cfg: Config, l: Ledger, e: Event, kind: Kind)
    ensures Counter(Step(cfg, l, e).s.stats, kind)
         == Counter(l.s.stats, kind) + if Is(cfg, l.s, e, kind) then 1 else 0
  {
    hide Replayed;
  }

  ghost function Count(cfg: Config, l: Ledger, es: seq<Event>, kind: Kind): nat
    decreases |es|
  {
    if es == [] then 0
    else (if Is(cfg, l.s, es[0], kind) then 1 else 0) + Count(cfg, Step(cfg, l, es[0]), es[1..], kind)
  }

  lemma {:induction false} RunCounts(cfg: Config, l: Ledger, es: seq<Event>, kind: Kind)
    ensures Counter(Run(cfg, l, es).s.stats, kind) == Counter(l.s.stats, kind) + Count(cfg, l, es, kind)
    decreases |es|
  {
    if es != [] {
      hide Step, Is, Counter;
      StepCounts(cfg, l, es[0], kind);
      RunCounts(cfg, Step(cfg, l, es[0]), es[1..], kind);
    }
  }

  /** Over every run each counter is the number of events of its kind. */
  lemma EveryCounterCounts(cfg: Config, es: seq<Event>, kind: Kind)
    ensures Counter(Run(cfg, EMPTY, es).s.stats, kind) == Count(cfg, EMPTY, es, kind)
  {
    RunCounts(cfg, EMPTY, es, kind);
  }

  // Amounts -------------------------------------------------------------------------------------------

  /** r is the share `part` of `whole` in `total`, rounded down. */
  predicate IsShare(r: nat, total: nat, part: nat, whole: nat) {
    r * whole <= total * part < (r + 1) * whole
  }

  lemma ReplayedIsShare(reserved: nat, accepted: nat, length: nat)
    ensures IsShare(Replayed(reserved, accepted, length), reserved, Min(accepted, Max(1, length)), Max(1, length))
  {
    var k := Max(1, length);
    var q := Quotient(reserved * Min(accepted, k), k);
    assert (q + 1) * k == q * k + k;
  }

  /** What a settlement and a bypassed write add to the bytes. */
  lemma AmountsOf(cfg: Config, l: Ledger, e: Event)
    ensures var st, st' := l.s.stats, Step(cfg, l, e).s.stats;
            && st.replayed <= st'.replayed && st.saved <= st'.saved
            && (if Settles(cfg, l.s, e) then
                  var reserved := l.s.active[e.id].reserved;
                  && IsShare(st'.replayed - st.replayed, reserved, Min(e.accepted, Max(1, e.length)), Max(1, e.length))
                  && st'.saved - st.saved == reserved - (st'.replayed - st.replayed)
                else st'.replayed == st.replayed && st'.saved == st.saved)
            && st'.bypassedBytes == st.bypassedBytes + if Is(cfg, l.s, e, BypassedWrite) then e.bytes else 0
  {
    if Settles(cfg, l.s, e) {
      ReplayedIsShare(l.s.active[e.id].reserved, e.accepted, e.length);
    }
    hide Replayed, IsShare;
  }

  /** What an accepted deferral, a settlement and an abort do to the requests: which one is active afterwards, with
      what, and that the others are as they were. */
  lemma ActiveAfter(cfg: Config, l: Ledger, e: Event)
    ensures var a, a' := l.s.active, Step(cfg, l, e).s.active;
            if Is(cfg, l.s, e, Accepted) then
              a' == a[e.id := Round(e.specRound, e.planned, e.planned * cfg.bytesPerToken)]
            else if Settles(cfg, l.s, e) || (e.Abort? && cfg.enable) then a' == a - {e.id}
            else a' == a
  {
    hide Replayed;
    if e.Abort? && e.id !in l.s.active {
      assert l.s.active - {e.id} == l.s.active;
    }
  }

  /** The largest amount that was ever resident. */
  ghost function Highest(cfg: Config, l: Ledger, es: seq<Event>): nat
    decreases |es|
  {
    if es == [] then l.s.resident else Max(l.s.resident, Highest(cfg, Step(cfg, l, es[0]), es[1..]))
  }

  lemma {:induction false} PeakIsHighest(cfg: Config, l: Ledger, es: seq<Event>)
    requires l.s.resident <= l.s.stats.peak
    ensures Run(cfg, l, es).s.stats.peak == Max(l.s.stats.peak, Highest(cfg, l, es))
    decreases |es|
  {
    if es != [] {
      StepPeak(cfg, l, es[0]);
      hide Step;
      PeakIsHighest(cfg, Step(cfg, l, es[0]), es[1..]);
    }
  }

  lemma StepPeak(cfg: Config, l: Ledger, e: Event)
    requires l.s.resident <= l.s.stats.peak
    ensures var s' := Step(cfg, l, e).s;
            s'.stats.peak == Max(l.s.stats.peak, s'.resident)
  {
    hide Replayed;
  }

  /** Over every run the recorded peak is the largest amount that was resident. */
  lemma PeakIs(cfg: Config, es: seq<Event>)
    ensures Run(cfg, EMPTY, es).s.stats.peak == Highest(cfg, EMPTY, es)
  {
    PeakIsHighest(cfg, EMPTY, es);
  }
}
