/** What the PIM overlay counts. ONNXim/src/PIMBackend.cc:79-238. */
module PimBooks {
  import opened Numbers
  import Ssrc
  import opened PimBackend
  import opened Routing

  function One(b: bool): nat { if b then 1 else 0 }
  function Only(b: bool, n: nat): nat { if b then n else 0 }

  /** What the issue of one request adds to the statistics, whatever its route. Requests to PIM channels are counted
      once, with their bytes, as reads or writes and, if tagged, as attention. A request that no bypass takes adds the
      cycles its channel is still held. Tagged writes are counted wherever they go as long as the coordinator is on,
      and those it cannot take by the reason. */
  lemma IssueBooks(k: Setup, s: System, c: nat, a: Access, now: nat)
    requires Sized(k, s) && c < |s.channels|
    ensures var st, st' := s.pim.stats, PimAfter(k, s, c, a, now).stats;
            var pim := k.pim.active && k.pim.isPim[c];
            var tried := k.pim.active && k.ssrc.enable && a.write && a.tagged;
            var asked := tried && pim && k.pim.ssrcCycles > 0;
            var known := a.requestId != INVALID_REQUEST_ID;
            var staged := asked && known && a.requestId in s.ssrc.active;
            var fused := !staged && pim && k.pim.aauFusion && k.pim.aauCycles > 0 && a.tagged;
            && st'.total == st.total + One(pim)
            && st'.readCount == st.readCount + One(pim && !a.write)
            && st'.writeCount == st.writeCount + One(pim && a.write)
            && st'.readBytes == st.readBytes + Only(pim && !a.write, a.size)
            && st'.writeBytes == st.writeBytes + Only(pim && a.write, a.size)
            && st'.attention == st.attention + One(pim && a.tagged)
            && st'.aauEvents == st.aauEvents + One(fused)
            && st'.switches == st.switches && st'.tvcCycles == st.tvcCycles
            && st'.ssrcRequests == st.ssrcRequests + One(staged)
            && st'.ssrcBytes == st.ssrcBytes + Only(staged, a.size)
            && st'.taggedWrites == st.taggedWrites + One(tried)
            && st'.taggedPimWrites == st.taggedPimWrites + One(tried && pim)
            && st'.rejectedInvalid == st.rejectedInvalid + One(asked && !known)
            && st'.rejectedInactive == st.rejectedInactive + One(asked && known && a.requestId !in s.ssrc.active)
            && st'.stallCycles == st.stallCycles
                 + if pim && !staged && !fused && s.pim.holdUntil[c] > now then s.pim.holdUntil[c] - now else 0
  {
  }

  /** A mode change, and a hold asked for by another part: the channel, its deadline and the two counters. */
  lemma SwitchBooks(cfg: Config, p: Pim, c: nat, mode: nat, now: nat)
    requires p.Valid(cfg) && c < |cfg.isPim|
    ensures var q := Switched(cfg, p, c, mode, now);
            var changes := cfg.active && cfg.isPim[c] && p.rankMode[c] != mode;
            && q.rankMode == (if changes then p.rankMode[c := mode] else p.rankMode)
            && q.holdUntil
               == (if changes then p.holdUntil[c := Max(p.holdUntil[c], now + cfg.gtsuCycles)] else p.holdUntil)
            && q.stats == p.stats.(switches := p.stats.switches + One(changes))
  {
  }

  lemma HoldBooks(cfg: Config, p: Pim, c: nat, until: nat)
    requires p.Valid(cfg) && c < |cfg.isPim|
    ensures var q := Scheduled(cfg, p, c, until);
            var pim := cfg.active && cfg.isPim[c];
            && q.rankMode == p.rankMode
            && q.holdUntil == (if pim then p.holdUntil[c := Max(p.holdUntil[c], until)] else p.holdUntil)
            && q.stats == p.stats.(tvcCycles := p.stats.tvcCycles + q.holdUntil[c] - p.holdUntil[c])
  {
  }

  /** Over all channels the counters add up: as many mode changes as channels that were not in the mode... */
  ghost function Changing(cfg: Config, p: Pim, mode: nat, c: nat): nat
    requires p.Valid(cfg)
    decreases |cfg.isPim| - c
  {
    if c >= |cfg.isPim| then 0
    else One(cfg.active && cfg.isPim[c] && p.rankMode[c] != mode) + Changing(cfg, p, mode, c + 1)
  }

  lemma {:induction false} ChangingSame(cfg: Config, p: Pim, q: Pim, mode: nat, c: nat)
    requires p.Valid(cfg) && q.Valid(cfg) && forall i :: c <= i < |cfg.isPim| ==> p.rankMode[i] == q.rankMode[i]
    ensures Changing(cfg, p, mode, c) == Changing(cfg, q, mode, c)
    decreases |cfg.isPim| - c
  {
    if c < |cfg.isPim| {
      ChangingSame(cfg, p, q, mode, c + 1);
    }
  }

  lemma {:induction false} SwitchAllBooks(cfg: Config, p: Pim, mode: nat, now: nat, c: nat)
    requires p.Valid(cfg)
    ensures SwitchedFrom(cfg, p, mode, now, c).stats
         == p.stats.(switches := p.stats.switches + Changing(cfg, p, mode, c))
    decreases |cfg.isPim| - c
  {
    if c < |cfg.isPim| {
      var q := Switched(cfg, p, c, mode, now);
      SwitchBooks(cfg, p, c, mode, now);
      SwitchAllBooks(cfg, q, mode, now, c + 1);
      ChangingSame(cfg, p, q, mode, c + 1);
    }
  }

  /** ... and as many held cycles as the deadlines moved on. */
  ghost function HeldCycles(hold: seq<nat>, from: nat): nat
    decreases |hold| - from
  {
    if from >= |hold| then 0 else hold[from] + HeldCycles(hold, from + 1)
  }

  lemma {:induction false} HeldSame(a: seq<nat>, b: seq<nat>, from: nat)
    requires |a| == |b| && forall i :: from <= i < |a| ==> a[i] == b[i]
    ensures HeldCycles(a, from) == HeldCycles(b, from)
    decreases |a| - from
  {
    if from < |a| {
      HeldSame(a, b, from + 1);
    }
  }

  lemma {:induction false} HoldAllBooks(cfg: Config, p: Pim, until: nat, c: nat)
    requires p.Valid(cfg)
    ensures var q := ScheduledFrom(cfg, p, until, c);
            && |q.holdUntil| == |p.holdUntil|
            && (forall i :: 0 <= i < c && i < |p.holdUntil| ==> q.holdUntil[i] == p.holdUntil[i])
            && q.stats.tvcCycles - p.stats.tvcCycles == HeldCycles(q.holdUntil, c) - HeldCycles(p.holdUntil, c)
    decreases |cfg.isPim| - c
  {
    if c < |cfg.isPim| {
      var q := Scheduled(cfg, p, c, until);
      HoldBooks(cfg, p, c, until);
      HoldAllBooks(cfg, q, until, c + 1);
      HeldSame(p.holdUntil, q.holdUntil, c + 1);
    }
  }
}
