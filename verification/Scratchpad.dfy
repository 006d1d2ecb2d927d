/** The double-buffered scratchpad and the scoreboard it keeps: ONNXim/src/Sram.cc:18-89. */
module Scratchpad {
  /** `remain` counts the writes an entry still waits for. */
  datatype Entry = Entry(valid: bool, size: nat, remain: nat)

  datatype Half = Half(table: map<nat, Entry>, used: nat)

  /** Bytes of one half, and bytes of one unit of size. */
  datatype Config = Config(size: nat, dataWidth: nat)

  type BufferId = b: nat | b < 2

  type Pad = p: seq<Half> | |p| == 2 witness [CLEARED, CLEARED]

  const CLEARED := Half(map[], 0)

  // Operations on a half ------------------------------------------------------------------------------

  predicate Fits(cfg: Config, amount: nat) {
    amount * cfg.dataWidth <= cfg.size
  }

  predicate Allocated(h: Half, a: nat) {
    a in h.table
  }

  predicate Hit(h: Half, a: nat) {
    a in h.table && h.table[a].valid
  }

  predicate Accepts(cfg: Config, h: Half, a: nat, size: nat) {
    a !in h.table && Fits(cfg, h.used + size)
  }

  function Prefetched(cfg: Config, h: Half, a: nat, size: nat, count: nat): Half {
    if Accepts(cfg, h, a, size) then Half(h.table[a := Entry(false, size, count)], h.used + size) else h
  }

  /** What fill asserts about its entry. */
  predicate Fillable(h: Half, a: nat) {
    a in h.table && h.table[a].remain > 0 && !h.table[a].valid
  }

  function Filled(h: Half, a: nat): Half
    requires Fillable(h, a)
  {
    var e := h.table[a];
    h.(table := h.table[a := e.(remain := e.remain - 1, valid := e.remain == 1)])
  }

  function CountedUp(h: Half, a: nat): Half
    requires Allocated(h, a)
  {
    h.(table := h.table[a := h.table[a].(remain := h.table[a].remain + 1, valid := false)])
  }

  // The class -----------------------------------------------------------------------------------------

  class Sram {
    const cfg: Config
    var cacheTable: seq<map<nat, Entry>>
    var currentSize: seq<nat>

    ghost predicate Valid()
      reads this
    {
      |cacheTable| == |currentSize| == 2
    }

    ghost function Now(): (p: Pad)
      reads this
      requires Valid()
    {
      [Half(cacheTable[0], currentSize[0]), Half(cacheTable[1], currentSize[1])]
    }

    constructor (cfg: Config)
      ensures this.cfg == cfg && Valid() && Now() == [CLEARED, CLEARED]
    {
      this.cfg := cfg;
      cacheTable, currentSize := [map[], map[]], [0, 0];
    }

    method CheckHit(a: nat, b: BufferId) returns (hit: bool)
      requires Valid()
      ensures hit == Hit(Now()[b], a)
    {
      if a !in cacheTable[b] { return false; }
      return cacheTable[b][a].valid;
    }

    method CheckRemain(size: nat, b: BufferId) returns (fits: bool)
      requires Valid()
      ensures fits == Fits(cfg, Now()[b].used + size)
    {
      fits := (currentSize[b] + size) * cfg.dataWidth <= cfg.size;
    }

    method CheckAllocated(a: nat, b: BufferId) returns (present: bool)
      requires Valid()
      ensures present == Allocated(Now()[b], a)
    {
      present := a in cacheTable[b];
    }

    /** The asserts at the head of fill. */
    method CheckFillable(a: nat, b: BufferId) returns (ok: bool)
      requires Valid()
      ensures ok == Fillable(Now()[b], a)
    {
      ok := a in cacheTable[b] && cacheTable[b][a].remain > 0 && !cacheTable[b][a].valid;
    }

    method Flush(b: BufferId)
      requires Valid()
      modifies this
      ensures Valid() && Now() == old(Now())[b := CLEARED]
    {
      currentSize := currentSize[b := 0];
      cacheTable := cacheTable[b := map[]];
    }

    method Prefetch(a: nat, b: BufferId, size: nat, count: nat) returns (ok: bool)
      requires Valid()
      modifies this
      ensures Valid() && ok == Accepts(cfg, old(Now())[b], a, size)
      ensures Now() == old(Now())[b := Prefetched(cfg, old(Now())[b], a, size, count)]
    {
      if a !in cacheTable[b] {
        var fits := CheckRemain(size, b);
        if !fits { return false; }
        currentSize := currentSize[b := currentSize[b] + size];
      } else {
        return false;
      }
      var table: map<nat, Entry> := cacheTable[b][a := Entry(false, size, count)];
      cacheTable := cacheTable[b := table];
      return true;
    }

    method Fill(a: nat, b: BufferId)
      requires Valid() && Fillable(Now()[b], a)
      modifies this
      ensures Valid() && Now() == old(Now())[b := Filled(old(Now())[b], a)]
    {
      var e := cacheTable[b][a];
      e := e.(remain := e.remain - 1);
      if e.remain == 0 {
        e := e.(valid := true);
      }
      var table: map<nat, Entry> := cacheTable[b][a := e];
      cacheTable := cacheTable[b := table];
    }

    method CountUp(a: nat, b: BufferId)
      requires Valid() && Allocated(Now()[b], a)
      modifies this
      ensures Valid() && Now() == old(Now())[b := CountedUp(old(Now())[b], a)]
    {
      var e := cacheTable[b][a];
      e := e.(remain := e.remain + 1);
      if e.valid {
        e := e.(valid := false);
      }
      var table: map<nat, Entry> := cacheTable[b][a := e];
      cacheTable := cacheTable[b := table];
    }
  }

  // What every operation keeps ------------------------------------------------------------------------

  ghost function Total(table: map<nat, Entry>): nat
    decreases |table|
  {
    if table == map[] then 0
    else
      var a :| a in table;
      table[a].size + Total(table - {a})
  }

  lemma {:induction false} TotalRemove(table: map<nat, Entry>, a: nat)
    requires a in table
    ensures Total(table) == table[a].size + Total(table - {a})
    decreases |table|
  {
    var pick :| pick in table && Total(table) == table[pick].size + Total(table - {pick});
    if pick != a {
      TotalRemove(table - {pick}, a);
      TotalRemove(table - {a}, pick);
      assert table - {pick} - {a} == table - {a} - {pick};
    }
  }

  lemma TotalPut(table: map<nat, Entry>, a: nat, e: Entry)
    ensures Total(table[a := e]) == e.size + Total(table - {a})
    ensures a !in table ==> Total(table[a := e]) == e.size + Total(table)
    ensures a in table && table[a].size == e.size ==> Total(table[a := e]) == Total(table)
  {
    TotalRemove(table[a := e], a);
    assert table[a := e] - {a} == table - {a};
    if a in table {
      TotalRemove(table, a);
    } else {
      assert table - {a} == table;
    }
  }

  /** The half accounts for exactly its entries, within its capacity, and an entry is valid exactly when it
      waits for nothing. */
  ghost predicate Inv(cfg: Config, h: Half) {
    && h.used == Total(h.table) && Fits(cfg, h.used)
    && forall a :: a in h.table ==> (h.table[a].valid <==> h.table[a].remain == 0)
  }

  datatype Event = Prefetch(a: nat, size: nat, count: nat) | Fill(a: nat) | CountUp(a: nat) | Flush

  /** The asserts of fill and count_up, and counts of at least one. */
  predicate Possible(h: Half, e: Event) {
    match e
    case Prefetch(_, _, count) => count >= 1
    case Fill(a) => Fillable(h, a)
    case CountUp(a) => Allocated(h, a)
    case Flush => true
  }

  function Step(cfg: Config, h: Half, e: Event): Half
    requires Possible(h, e)
  {
    match e
    case Prefetch(a, size, count) => Prefetched(cfg, h, a, size, count)
    case Fill(a) => Filled(h, a)
    case CountUp(a) => CountedUp(h, a)
    case Flush => CLEARED
  }

  lemma StepKeeps(cfg: Config, h: Half, e: Event)
    requires Inv(cfg, h) && Possible(h, e)
    ensures Inv(cfg, Step(cfg, h, e))
  {
    hide Fits;
    match e
    case Prefetch(a, size, count) => TotalPut(h.table, a, Entry(false, size, count));
    case Fill(a) => TotalPut(h.table, a, Filled(h, a).table[a]);
    case CountUp(a) => TotalPut(h.table, a, CountedUp(h, a).table[a]);
    case Flush => assert Fits(cfg, 0) by { FitsNothing(cfg); }
  }

  lemma FitsNothing(cfg: Config)
    ensures Fits(cfg, 0)
  {
  }

  // Whole runs, and what an entry has been asked for since it was allocated ---------------------------

  /** A run of one half, the latest event last. */
  datatype Trace = Begin | Then(before: Trace, last: Event)

  /** The half after the run, if no assert fails on the way. */
  function After(cfg: Config, t: Trace): (h: Half)
    requires Sound(cfg, t)
    decreases t, 1
  {
    match t
    case Begin => CLEARED
    case Then(before, e) => Step(cfg, After(cfg, before), e)
  }

  predicate Sound(cfg: Config, t: Trace)
    decreases t, 0
  {
    t.Then? ==> Sound(cfg, t.before) && Possible(After(cfg, t.before), t.last)
  }

  /** The event that allocates a, in the state it meets. */
  predicate Allocates(cfg: Config, t: Trace, a: nat)
    requires Sound(cfg, t) && t.Then?
  {
    t.last.Prefetch? && t.last.a == a && Accepts(cfg, After(cfg, t.before), a, t.last.size)
  }

  /** How many writes of a were announced since it was last allocated. */
  function Asked(cfg: Config, t: Trace, a: nat): nat
    requires Sound(cfg, t)
  {
    if t.Begin? then 0
    else if Allocates(cfg, t, a) then t.last.count
    else Asked(cfg, t.before, a) + if t.last == CountUp(a) then 1 else 0
  }

  /** How many of them arrived. */
  function Arrived(cfg: Config, t: Trace, a: nat): nat
    requires Sound(cfg, t)
  {
    if t.Begin? || Allocates(cfg, t, a) then 0
    else Arrived(cfg, t.before, a) + if t.last == Fill(a) then 1 else 0
  }

  /** In every run: sizes add up within the capacity, an entry waits for exactly the writes announced and not
      yet arrived, and it is valid exactly when all of them have. */
  lemma {:induction false} EveryRunKeeps(cfg: Config, t: Trace)
    requires Sound(cfg, t)
    ensures var h := After(cfg, t);
            && h.used == Total(h.table) && Fits(cfg, h.used)
            && forall a :: a in h.table ==>
                 && h.table[a].remain + Arrived(cfg, t, a) == Asked(cfg, t, a)
                 && (h.table[a].valid <==> Arrived(cfg, t, a) == Asked(cfg, t, a))
  {
    RunKeeps(cfg, t);
    forall a | a in After(cfg, t).table
      ensures After(cfg, t).table[a].remain + Arrived(cfg, t, a) == Asked(cfg, t, a)
    {
      Waits(cfg, t, a);
    }
  }

  lemma {:induction false} RunKeeps(cfg: Config, t: Trace)
    requires Sound(cfg, t)
    ensures Inv(cfg, After(cfg, t))
  {
    if t.Then? {
      RunKeeps(cfg, t.before);
      StepKeeps(cfg, After(cfg, t.before), t.last);
    } else {
      FitsNothing(cfg);
    }
  }

  lemma {:induction false} Waits(cfg: Config, t: Trace, a: nat)
    requires Sound(cfg, t) && a in After(cfg, t).table
    ensures After(cfg, t).table[a].remain + Arrived(cfg, t, a) == Asked(cfg, t, a)
  {
    if t.Then? && a in After(cfg, t.before).table {
      Waits(cfg, t.before, a);
    }
  }

  /** A refused prefetch is exactly one that meets its address already there or does not fit. */
  lemma RefusedPrefetch(cfg: Config, h: Half, a: nat, size: nat, count: nat)
    requires Inv(cfg, h)
    ensures a in Prefetched(cfg, h, a, size, count).table <==> a in h.table || Fits(cfg, Total(h.table) + size)
    ensures Prefetched(cfg, h, a, size, count) == h <==> !Accepts(cfg, h, a, size)
  {
    hide Fits, Total;
    assert Accepts(cfg, h, a, size) ==> Prefetched(cfg, h, a, size, count).table != h.table;
  }
}
