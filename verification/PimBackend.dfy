/** The PIM overlay of the DRAM channels: ONNXim/src/PIMBackend.cc:79-238. */
module PimBackend {
  import Ssrc
  import opened Numbers

  /** What the overlay looks at in a memory access; the id is its identity. */
  datatype Access = Access(id: nat, size: nat, write: bool, tagged: bool, requestId: nat, task: nat)

  const INVALID_REQUEST_ID := 0xFFFF_FFFF
  const MAX_HOLD := 0xFFFF_FFFF

  datatype Config = Config(active: bool, isPim: seq<bool>, aauFusion: bool, aauCycles: nat, ssrcCycles: nat,
                           gtsuCycles: nat) {
    predicate IsPimChannel(cid: nat) {
      active && cid < |isPim| && isPim[cid]
    }
  }

  datatype Stats = Stats(total: nat, readCount: nat, writeCount: nat, readBytes: nat, writeBytes: nat, attention: nat,
                         aauEvents: nat, switches: nat, stallCycles: nat, tvcCycles: nat,
                         ssrcRequests: nat, ssrcBytes: nat,
                         taggedWrites: nat, taggedPimWrites: nat, rejectedInvalid: nat, rejectedInactive: nat)

  datatype Pim = Pim(holdUntil: seq<nat>, rankMode: seq<nat>, stats: Stats) {
    predicate Valid(cfg: Config) { |holdUntil| == |rankMode| == |cfg.isPim| }
  }

  function Counted(st: Stats, req: Access): Stats {
    st.(total := st.total + 1,
        readCount := st.readCount + (if req.write then 0 else 1),
        readBytes := st.readBytes + (if req.write then 0 else req.size),
        writeCount := st.writeCount + (if req.write then 1 else 0),
        writeBytes := st.writeBytes + (if req.write then req.size else 0),
        attention := st.attention + (if req.tagged then 1 else 0))
  }

  // Operations on the state ---------------------------------------------------------------------------

  /** How long a request crossing into the channel at cycle `now` is held: up to the channel's deadline, as
      far as that fits 32 bits. */
  function Hold(cfg: Config, p: Pim, cid: nat, now: nat): nat
    requires p.Valid(cfg)
  {
    if !cfg.IsPimChannel(cid) || p.holdUntil[cid] <= now then 0
    else if p.holdUntil[cid] - now < MAX_HOLD then p.holdUntil[cid] - now
    else MAX_HOLD
  }

  function AfterPush(cfg: Config, p: Pim, cid: nat, req: Access, now: nat): Pim
    requires p.Valid(cfg)
  {
    if !cfg.IsPimChannel(cid) then p
    else
      var st := Counted(p.stats, req);
      p.(stats := st.(stallCycles := st.stallCycles + if p.holdUntil[cid] > now then p.holdUntil[cid] - now else 0))
  }

  /** A tagged write of a currently deferred request, on a PIM channel. */
  predicate TakesSsrc(cfg: Config, scfg: Ssrc.Config, s: Ssrc.State, cid: nat, req: Access) {
    && cfg.IsPimChannel(cid) && scfg.enable && req.write && req.tagged && cfg.ssrcCycles > 0
    && req.requestId != INVALID_REQUEST_ID && Ssrc.IsActive(scfg, s, req.requestId)
  }

  function AfterSsrc(cfg: Config, scfg: Ssrc.Config, p: Pim, s: Ssrc.State, cid: nat, req: Access): Pim {
    if !cfg.active || !scfg.enable then p
    else
      var st := p.stats;
      var st1 := if req.write && req.tagged then
                   st.(taggedWrites := st.taggedWrites + 1,
                       taggedPimWrites := st.taggedPimWrites + if cfg.IsPimChannel(cid) then 1 else 0)
                 else st;
      if !cfg.IsPimChannel(cid) || !req.write || !req.tagged || cfg.ssrcCycles == 0 then p.(stats := st1)
      else if req.requestId == INVALID_REQUEST_ID then p.(stats := st1.(rejectedInvalid := st1.rejectedInvalid + 1))
      else if !Ssrc.IsActive(scfg, s, req.requestId)
        then p.(stats := st1.(rejectedInactive := st1.rejectedInactive + 1))
      else
        var st2 := Counted(st1, req);
        p.(stats := st2.(ssrcRequests := st2.ssrcRequests + 1, ssrcBytes := st2.ssrcBytes + req.size))
  }

  function SsrcAfter(cfg: Config, scfg: Ssrc.Config, s: Ssrc.State, cid: nat, req: Access): Ssrc.State {
    if TakesSsrc(cfg, scfg, s, cid, req) then Ssrc.Noted(scfg, s, req.requestId, req.size) else s
  }

  predicate TakesAau(cfg: Config, cid: nat, req: Access) {
    cfg.IsPimChannel(cid) && cfg.aauFusion && req.tagged && cfg.aauCycles > 0
  }

  function AfterAau(cfg: Config, p: Pim, cid: nat, req: Access): Pim {
    if !TakesAau(cfg, cid, req) then p
    else
      var st := Counted(p.stats, req);
      p.(stats := st.(aauEvents := st.aauEvents + 1))
  }

  function Switched(cfg: Config, p: Pim, cid: nat, mode: nat, now: nat): (q: Pim)
    requires p.Valid(cfg)
    ensures q.Valid(cfg)
  {
    if !cfg.IsPimChannel(cid) || p.rankMode[cid] == mode then p
    else Pim(p.holdUntil[cid := Max(p.holdUntil[cid], now + cfg.gtsuCycles)], p.rankMode[cid := mode],
             p.stats.(switches := p.stats.switches + 1))
  }

  function SwitchedFrom(cfg: Config, p: Pim, mode: nat, now: nat, cid: nat): (q: Pim)
    requires p.Valid(cfg)
    ensures q.Valid(cfg)
    decreases |cfg.isPim| - cid
  {
    if cid >= |cfg.isPim| then p else SwitchedFrom(cfg, Switched(cfg, p, cid, mode, now), mode, now, cid + 1)
  }

  /** A PIM channel that is not in the mode yet. */
  ghost predicate SomeSwitches(cfg: Config, p: Pim, mode: nat)
    requires p.Valid(cfg)
  {
    cfg.active && exists i :: 0 <= i < |cfg.isPim| && cfg.isPim[i] && p.rankMode[i] != mode
  }

  function Scheduled(cfg: Config, p: Pim, cid: nat, until: nat): (q: Pim)
    requires p.Valid(cfg)
    ensures q.Valid(cfg)
  {
    if !cfg.IsPimChannel(cid) || p.holdUntil[cid] >= until then p
    else p.(holdUntil := p.holdUntil[cid := until],
            stats := p.stats.(tvcCycles := p.stats.tvcCycles + (until - p.holdUntil[cid])))
  }

  function ScheduledFrom(cfg: Config, p: Pim, until: nat, cid: nat): (q: Pim)
    requires p.Valid(cfg)
    ensures q.Valid(cfg)
    decreases |cfg.isPim| - cid
  {
    if cid >= |cfg.isPim| then p else ScheduledFrom(cfg, Scheduled(cfg, p, cid, until), until, cid + 1)
  }

  // Properties ----------------------------------------------------------------------------------------

  /** No deadline ever moves back. */
  ghost predicate Later(p: Pim, q: Pim) {
    |p.holdUntil| == |q.holdUntil| && forall i :: 0 <= i < |p.holdUntil| ==> p.holdUntil[i] <= q.holdUntil[i]
  }

  lemma {:induction false} SwitchAllFacts(cfg: Config, p: Pim, mode: nat, now: nat, cid: nat)
    requires p.Valid(cfg) && cfg.active && cid <= |cfg.isPim|
    ensures var q := SwitchedFrom(cfg, p, mode, now, cid);
            && Later(p, q)
            && (forall i :: cid <= i < |cfg.isPim| && cfg.isPim[i] ==> q.rankMode[i] == mode)
            && (forall i :: cid <= i < |cfg.isPim| && cfg.isPim[i] ==>
                  q.holdUntil[i] == if p.rankMode[i] == mode then p.holdUntil[i]
                                    else Max(p.holdUntil[i], now + cfg.gtsuCycles))
            && (forall i :: 0 <= i < |cfg.isPim| && (i < cid || !cfg.isPim[i]) ==>
                  q.rankMode[i] == p.rankMode[i] && q.holdUntil[i] == p.holdUntil[i])
            && q.stats.total == p.stats.total && q.stats.readCount == p.stats.readCount
            && q.stats.writeCount == p.stats.writeCount
            && q.stats.ssrcRequests == p.stats.ssrcRequests && q.stats.ssrcBytes == p.stats.ssrcBytes
    decreases |cfg.isPim| - cid
  {
    if cid < |cfg.isPim| {
      SwitchAllFacts(cfg, Switched(cfg, p, cid, mode, now), mode, now, cid + 1);
    }
  }

  lemma {:induction false} ScheduleAllFacts(cfg: Config, p: Pim, until: nat, cid: nat)
    requires p.Valid(cfg) && cfg.active && cid <= |cfg.isPim|
    ensures var q := ScheduledFrom(cfg, p, until, cid);
            && Later(p, q)
            && (forall i :: cid <= i < |cfg.isPim| && cfg.isPim[i] ==> q.holdUntil[i] == Max(p.holdUntil[i], until))
            && (forall i :: 0 <= i < |cfg.isPim| && (i < cid || !cfg.isPim[i]) ==> q.holdUntil[i] == p.holdUntil[i])
            && q.rankMode == p.rankMode
            && q.stats.total == p.stats.total && q.stats.readCount == p.stats.readCount
            && q.stats.writeCount == p.stats.writeCount
            && q.stats.ssrcRequests == p.stats.ssrcRequests && q.stats.ssrcBytes == p.stats.ssrcBytes
    decreases |cfg.isPim| - cid
  {
    if cid < |cfg.isPim| {
      ScheduleAllFacts(cfg, Scheduled(cfg, p, cid, until), until, cid + 1);
    }
  }

  // The class -----------------------------------------------------------------------------------------

  class PIMBackend {
    const cfg: Config
    const ssrc: Ssrc.SSRCCoordinator
    var holdUntil: seq<nat>
    var rankMode: seq<nat>
    var stats: Stats

    ghost function Now(): Pim
      reads this
    {
      Pim(holdUntil, rankMode, stats)
    }

    constructor (cfg: Config, ssrc: Ssrc.SSRCCoordinator)
      ensures this.cfg == cfg && this.ssrc == ssrc && Now().Valid(cfg)
      ensures Now() == Pim(seq(|cfg.isPim|, i => 0), seq(|cfg.isPim|, i => 0),
                           Stats(0, 0, 0, 0, 0, 0, 0, 0, 0, 0, 0, 0, 0, 0, 0, 0))
    {
      this.cfg, this.ssrc := cfg, ssrc;
      holdUntil, rankMode := seq(|cfg.isPim|, i => 0), seq(|cfg.isPim|, i => 0);
      stats := Stats(0, 0, 0, 0, 0, 0, 0, 0, 0, 0, 0, 0, 0, 0, 0, 0);
    }

    method OnDramPush(cid: nat, req: Access, npuCycle: nat) returns (hold: nat)
      requires Now().Valid(cfg)
      modifies this
      ensures Now() == AfterPush(cfg, old(Now()), cid, req, npuCycle) && Now().Valid(cfg)
      ensures hold == Hold(cfg, old(Now()), cid, npuCycle)
    {
      if !cfg.IsPimChannel(cid) { return 0; }
      stats := stats.(total := stats.total + 1);
      if req.write {
        stats := stats.(writeCount := stats.writeCount + 1, writeBytes := stats.writeBytes + req.size);
      } else {
        stats := stats.(readCount := stats.readCount + 1, readBytes := stats.readBytes + req.size);
      }
      if req.tagged {
        stats := stats.(attention := stats.attention + 1);
      }
      var until := holdUntil[cid];
      if until > npuCycle {
        stats := stats.(stallCycles := stats.stallCycles + (until - npuCycle));
        return if until - npuCycle < MAX_HOLD then until - npuCycle else MAX_HOLD;
      }
      return 0;
    }

    method TrySsrcBypass(cid: nat, req: Access) returns (taken: bool)
      modifies this, ssrc
      ensures taken == TakesSsrc(cfg, ssrc.cfg, old(ssrc.Now()), cid, req)
      ensures Now() == AfterSsrc(cfg, ssrc.cfg, old(Now()), old(ssrc.Now()), cid, req)
      ensures ssrc.Now() == SsrcAfter(cfg, ssrc.cfg, old(ssrc.Now()), cid, req)
    {
      if !cfg.active || !ssrc.cfg.enable { return false; }
      if req.write && req.tagged {
        stats := stats.(taggedWrites := stats.taggedWrites + 1);
        if cfg.IsPimChannel(cid) {
          stats := stats.(taggedPimWrites := stats.taggedPimWrites + 1);
        }
      }
      if !cfg.IsPimChannel(cid) { return false; }
      if !req.write || !req.tagged { return false; }
      if cfg.ssrcCycles == 0 { return false; }
      if req.requestId == INVALID_REQUEST_ID {
        stats := stats.(rejectedInvalid := stats.rejectedInvalid + 1);
        return false;
      }
      var active := ssrc.IsActiveRequest(req.requestId);
      if !active {
        stats := stats.(rejectedInactive := stats.rejectedInactive + 1);
        return false;
      }
      ssrc.NoteBypassedWrite(req.requestId, req.size);
      stats := stats.(total := stats.total + 1, writeCount := stats.writeCount + 1,
                      writeBytes := stats.writeBytes + req.size,
                      attention := stats.attention + 1,
                      ssrcRequests := stats.ssrcRequests + 1, ssrcBytes := stats.ssrcBytes + req.size);
      return true;
    }

    method TryAauBypass(cid: nat, req: Access) returns (taken: bool)
      modifies this
      ensures taken == TakesAau(cfg, cid, req)
      ensures Now() == AfterAau(cfg, old(Now()), cid, req)
    {
      if !cfg.IsPimChannel(cid) { return false; }
      if !(cfg.aauFusion && req.tagged) { return false; }
      if cfg.aauCycles == 0 { return false; }
      stats := stats.(total := stats.total + 1);
      if req.write {
        stats := stats.(writeCount := stats.writeCount + 1, writeBytes := stats.writeBytes + req.size);
      } else {
        stats := stats.(readCount := stats.readCount + 1, readBytes := stats.readBytes + req.size);
      }
      stats := stats.(attention := stats.attention + 1, aauEvents := stats.aauEvents + 1);
      return true;
    }

    method RequestGtsuSwitch(cid: nat, newMode: nat, npuCycle: nat) returns (done: nat)
      requires Now().Valid(cfg)
      modifies this
      ensures Now() == Switched(cfg, old(Now()), cid, newMode, npuCycle)
      ensures done == if cfg.IsPimChannel(cid) && old(rankMode)[cid] != newMode then npuCycle + cfg.gtsuCycles
              else npuCycle
    {
      if !cfg.IsPimChannel(cid) { return npuCycle; }
      if rankMode[cid] == newMode { return npuCycle; }
      done := npuCycle + cfg.gtsuCycles;
      if holdUntil[cid] < done {
        holdUntil := holdUntil[cid := done];
      }
      rankMode := rankMode[cid := newMode];
      stats := stats.(switches := stats.switches + 1);
    }

    method SwitchAllPimTo(newMode: nat, npuCycle: nat) returns (latest: nat)
      requires Now().Valid(cfg)
      modifies this
      ensures Now() == if cfg.active then SwitchedFrom(cfg, old(Now()), newMode, npuCycle, 0) else old(Now())
      ensures latest == npuCycle + if SomeSwitches(cfg, old(Now()), newMode) then cfg.gtsuCycles else 0
    {
      if !cfg.active { return npuCycle; }
      latest := npuCycle;
      for cid := 0 to |cfg.isPim|
        invariant Now().Valid(cfg)
        invariant latest == npuCycle
                            + if exists i :: 0 <= i < cid && cfg.isPim[i] && old(rankMode)[i] != newMode
                              then cfg.gtsuCycles else 0
        invariant forall i :: cid <= i < |cfg.isPim| ==> rankMode[i] == old(rankMode)[i]
        invariant SwitchedFrom(cfg, old(Now()), newMode, npuCycle, 0)
                == SwitchedFrom(cfg, Now(), newMode, npuCycle, cid)
      {
        if cfg.isPim[cid] {
          var done := RequestGtsuSwitch(cid, newMode, npuCycle);
          if done > latest {
            latest := done;
          }
        }
      }
    }

    method ScheduleHold(cid: nat, until: nat)
      requires Now().Valid(cfg)
      modifies this
      ensures Now() == Scheduled(cfg, old(Now()), cid, until)
    {
      if !cfg.IsPimChannel(cid) { return; }
      if holdUntil[cid] < until {
        var prev := holdUntil[cid];
        holdUntil := holdUntil[cid := until];
        stats := stats.(tvcCycles := stats.tvcCycles + (until - prev));
      }
    }

    method ScheduleHoldAllPim(until: nat)
      requires Now().Valid(cfg)
      modifies this
      ensures Now() == if cfg.active then ScheduledFrom(cfg, old(Now()), until, 0) else old(Now())
    {
      if !cfg.active { return; }
      for cid := 0 to |cfg.isPim|
        invariant Now().Valid(cfg)
        invariant ScheduledFrom(cfg, old(Now()), until, 0) == ScheduledFrom(cfg, Now(), until, cid)
      {
        if cfg.isPim[cid] {
          ScheduleHold(cid, until);
        }
      }
    }
  }
}
