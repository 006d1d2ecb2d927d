/** The closed-form GEMM tiling: ONNXim/src/Mapping.cc:52-135. */
module GemmMapping {
  import opened Pow2s
  import opened MappingCommon
  import opened Numbers

  /** Core height 2^dimLog, buffer sizes and element size in bytes, number of cores. */
  datatype Config = Config(dimLog: nat, spadBytes: nat, accumBytes: nat, precision: nat, cores: nat) {
    predicate Valid() { precision > 0 && cores > 0 }
    function Dim(): (d: nat)
      ensures d > 0
    {
      Pow2(dimLog)
    }

    function MaxSpadRows(): nat
      requires Valid()
    {
      NatDiv(spadBytes, Double(Dim(), precision))
    }

    function MaxAccRows(): nat
      requires Valid()
    {
      NatDiv(accumBytes, Double(Dim(), 4))
    }

    function MatsInPartition(): nat
      requires Valid()
    {
      NatDiv(MaxSpadRows() / 2, Dim())
    }

    function MatsInAcc(): nat
      requires Valid()
    {
      NatDiv(MaxAccRows(), Dim())
    }

    /** The largest square of output tiles the accumulator half holds, and how deep the operands may be. */
    function MaxTileIJ(): nat
      requires Valid()
    {
      Root(MatsInAcc())
    }

    function MaxTileK(): nat
      requires Valid() && MaxTileIJ() > 0
    {
      NatDiv(MatsInPartition(), MaxTileIJ())
    }
  }

  /** `(uint32_t)sqrt(n)`. */
  function Root(n: nat): (r: nat)
    ensures r * r <= n < (r + 1) * (r + 1)
  {
    if n == 0 then 0
    else
      var r := Root(n - 1);
      if (r + 1) * (r + 1) <= n then r + 1 else r
  }

  datatype Loop = Loop(N: nat, C: nat, M: nat)
  datatype Mapping = Mapping(total: Loop, outer: Loop, inner: Loop)

  /** How many tiles a dimension is cut into before cores are balanced. */
  function Tiles(total: nat, dim: nat, maxTile: nat): nat
    requires dim > 0 && maxTile > 0
  {
    MulStrict(0, maxTile, dim);
    Min(Blocks(total, dim), CeilDiv(total, maxTile * dim))
  }

  /** The tile counts in I and J after both balancing steps; None when the first divides by zero. */
  datatype Counts = Counts(i: nat, j: nat)

  function Spread(c: Counts, I: nat, J: nat, cores: nat): Counts
    requires c.i * c.j > 0
  {
    var increase := CeilDiv(cores, c.i * c.j);
    if c.i * c.j >= cores then c
    else if J > I && J > cores then c.(j := c.j * increase)
    else if I > J && I > cores then c.(i := c.i * increase)
    else c
  }

  function Even(c: Counts, I: nat, J: nat, cores: nat): Counts
    requires cores > 0
  {
    var increase := c.i * c.j % cores;
    if increase == 0 then c
    else if J > I && J > cores then c.(j := c.j + increase)
    else if I > J && I > cores then c.(i := c.i + increase)
    else c
  }

  /** f is the least factor that takes n to at least `goal`. */
  ghost predicate LeastFactor(n: nat, goal: nat, f: nat) {
    n * f >= goal && (f > 0 ==> n * (f - 1) < goal)
  }

  lemma LeastIsCeilDiv(n: nat, goal: nat)
    requires n > 0 && goal > 0
    ensures LeastFactor(n, goal, CeilDiv(goal, n))
  {
    var f := CeilDiv(goal, n);
    CeilDivCovers(goal, n);
    assert (f - 1) * n == f * n - n;
  }

  lemma Factored(i: nat, j: nat, f: nat)
    ensures i * (j * f) == i * j * f == i * f * j
  {
  }

  /** What the first balancing step has to do. With fewer tiles than cores, the count along the strictly longer
      dimension, if that is longer than there are cores, is multiplied by the least factor that gives every core a
      tile; in every other case nothing changes. */
  ghost predicate ReachesCores(c: Counts, s: Counts, I: nat, J: nat, cores: nat) {
    if c.i * c.j < cores && J > I && J > cores then
      s.i == c.i && s.i * s.j >= cores && exists f :: LeastFactor(c.i * c.j, cores, f) && s.j == c.j * f
    else if c.i * c.j < cores && I > J && I > cores then
      s.j == c.j && s.i * s.j >= cores && exists f :: LeastFactor(c.i * c.j, cores, f) && s.i == c.i * f
    else s == c
  }

  lemma SpreadReachesCores(c: Counts, I: nat, J: nat, cores: nat)
    requires c.i * c.j > 0
    ensures ReachesCores(c, Spread(c, I, J, cores), I, J, cores)
  {
    if c.i * c.j < cores {
      var f := CeilDiv(cores, c.i * c.j);
      LeastIsCeilDiv(c.i * c.j, cores);
      Factored(c.i, c.j, f);
    }
  }

  /** And the second one: that count grows by the tiles that are left over when the cores share them evenly. */
  ghost predicate AddsRest(c: Counts, s: Counts, I: nat, J: nat, cores: nat) {
    if J > I && J > cores then s.i == c.i && s.j >= c.j && LeftOver(c.i * c.j, cores, s.j - c.j)
    else if I > J && I > cores then s.j == c.j && s.i >= c.i && LeftOver(c.i * c.j, cores, s.i - c.i)
    else s == c
  }

  lemma EvenAddsRest(c: Counts, I: nat, J: nat, cores: nat)
    requires cores > 0
    ensures AddsRest(c, Even(c, I, J, cores), I, J, cores)
  {
    SharedEvenly(c.i * c.j, cores);
  }

  /** n tiles leave `rest` over when the cores take equally many each, and as many as they can. */
  ghost predicate LeftOver(n: nat, cores: nat, rest: nat) {
    rest < cores && exists each: nat :: Shared(each, cores, rest) == n
  }

  function Shared(each: nat, cores: nat, rest: nat): nat { each * cores + rest }

  lemma SharedEvenly(n: nat, cores: nat)
    requires cores > 0
    ensures LeftOver(n, cores, n % cores)
  {
    assert Shared(n / cores, cores, n % cores) == n;
  }

  lemma SpreadGrows(c: Counts, I: nat, J: nat, cores: nat)
    requires c.i * c.j > 0
    ensures Spread(c, I, J, cores).i >= c.i && Spread(c, I, J, cores).j >= c.j
    ensures cores == 1 ==> Spread(c, I, J, cores) == c
  {
    var increase := CeilDiv(cores, c.i * c.j);
    if cores > 0 {
      CeilDivCovers(cores, c.i * c.j);
      MulMono(1, increase, c.i);
      MulMono(1, increase, c.j);
    }
  }

  lemma EvenGrows(c: Counts, I: nat, J: nat, cores: nat)
    requires cores > 0
    ensures Even(c, I, J, cores).i >= c.i && Even(c, I, J, cores).j >= c.j
    ensures cores == 1 ==> Even(c, I, J, cores) == c
  {
  }

  // Inner sizes ---------------------------------------------------------------------------------------

  /** `inner -= inner & (dim - 1)`. */
  function RoundDown(x: nat, dimLog: nat): nat {
    Split(x, dimLog);
    x - Low(x, dimLog)
  }

  lemma RoundDownFacts(x: nat, dimLog: nat)
    ensures RoundDown(x, dimLog) == Shr(x, dimLog) * Pow2(dimLog)
    ensures x < RoundDown(x, dimLog) + Pow2(dimLog)
    ensures RoundDown(x, dimLog) > 0 <==> x >= Pow2(dimLog)
  {
    Split(x, dimLog);
    if Shr(x, dimLog) > 0 {
      MulMono(1, Shr(x, dimLog), Pow2(dimLog));
    }
  }

  /** The size of one tile, in elements. */
  function Inner(total: nat, dimLog: nat, tiles: nat): nat
    requires tiles > 0
  {
    RoundDown(CeilDiv(Blocks(total, Pow2(dimLog)) * Pow2(dimLog), tiles), dimLog)
  }

  /** Cut into this many tiles, none is longer than maxTile blocks. */
  lemma TilesEnough(total: nat, dim: nat, maxTile: nat)
    requires total > 0 && dim > 0 && maxTile > 0
    ensures Blocks(total, dim) <= maxTile * Tiles(total, dim, maxTile)
    ensures 0 < Tiles(total, dim, maxTile) <= Blocks(total, dim)
  {
    MulStrict(0, maxTile, dim);
    var b, c := Blocks(total, dim), CeilDiv(total, maxTile * dim);
    BlocksIsCeilDiv(total, dim);
    CeilDivCovers(total, maxTile * dim);
    assert c * (maxTile * dim) == maxTile * c * dim;
    CeilDivAtMost(total, dim, maxTile * c);
    MulMono(1, maxTile, b);
  }

  /** So many tiles within the limit cover the dimension, and no fewer. */
  ghost predicate LeastTiles(total: nat, size: nat, t: nat) {
    t * size >= total && (t > 0 ==> (t - 1) * size < total)
  }

  lemma TilesAreLeast(total: nat, dim: nat, maxTile: nat)
    requires total > 0 && dim > 0 && maxTile > 0
    ensures LeastTiles(total, maxTile * dim, Tiles(total, dim, maxTile))
  {
    hide Tiles;
    TilesLeast(total, dim, maxTile, Tiles(total, dim, maxTile));
    TilesEnough(total, dim, maxTile);
    TilesLeast(total, dim, maxTile, Tiles(total, dim, maxTile) - 1);
  }

  /** A count is enough exactly if it is at least this one. */
  lemma TilesLeast(total: nat, dim: nat, maxTile: nat, t: nat)
    requires total > 0 && dim > 0 && maxTile > 0
    ensures Tiles(total, dim, maxTile) <= t <==> total <= t * (maxTile * dim)
  {
    MulStrict(0, maxTile, dim);
    var c := CeilDiv(total, maxTile * dim);
    BlocksIsCeilDiv(total, dim);
    CeilDivAtMost(total, maxTile * dim, t);
    CeilDivCovers(total, dim);
    MulMono(1, maxTile, dim);
    MulMono(dim, maxTile * dim, Blocks(total, dim));
    CeilDivAtMost(total, maxTile * dim, Blocks(total, dim));
  }

  /** The tile is whole blocks, and as long as they allow: it has q of them exactly if tiles one element shorter than
      q blocks would not cover the padded dimension. */
  ghost predicate LargestInner(total: nat, dimLog: nat, tiles: nat, inner: nat) {
    && (exists m: nat :: inner == Product(m, Pow2(dimLog)))
    && forall q: nat :: q > 0 ==> (Product(q, Pow2(dimLog)) <= inner <==> Short(total, dimLog, tiles, q))
  }

  predicate Short(total: nat, dimLog: nat, tiles: nat, q: nat)
    requires q > 0
  {
    (q * Pow2(dimLog) - 1) * tiles < Blocks(total, Pow2(dimLog)) * Pow2(dimLog)
  }

  lemma InnerIsLargest(total: nat, dimLog: nat, tiles: nat)
    requires tiles > 0
    ensures LargestInner(total, dimLog, tiles, Inner(total, dimLog, tiles))
  {
    hide Inner, Blocks, Pow2;
    InnerLargest(total, dimLog, tiles, 1);
    forall q: nat | q > 0
      ensures Product(q, Pow2(dimLog)) <= Inner(total, dimLog, tiles) <==> Short(total, dimLog, tiles, q)
    {
      InnerLargest(total, dimLog, tiles, q);
    }
  }

  lemma InnerLargest(total: nat, dimLog: nat, tiles: nat, q: nat)
    requires tiles > 0 && q > 0
    ensures q * Pow2(dimLog) <= Inner(total, dimLog, tiles) <==>
              (q * Pow2(dimLog) - 1) * tiles < Blocks(total, Pow2(dimLog)) * Pow2(dimLog)
    ensures exists m: nat :: Inner(total, dimLog, tiles) == Product(m, Pow2(dimLog))
  {
    hide Blocks;
    var dim, b := Pow2(dimLog), Blocks(total, Pow2(dimLog));
    hide Pow2;
    var x := CeilDiv(b * dim, tiles);
    RoundDownFacts(x, dimLog);
    assert Inner(total, dimLog, tiles) == Product(Shr(x, dimLog), dim);
    MulMono(1, q, dim);
    CeilDivAtMost(b * dim, tiles, q * dim - 1);
    WholeBlocks(q, Shr(x, dimLog), dim, x);
  }

  function Product(a: nat, b: nat): nat { a * b }

  lemma WholeBlocks(q: nat, m: nat, dim: nat, x: nat)
    requires dim > 0 && m * dim <= x < m * dim + dim
    ensures q * dim <= m * dim <==> q * dim <= x
  {
    if q <= m {
      MulMono(q, m, dim);
    } else {
      MulMono(m + 1, q, dim);
      assert (m + 1) * dim == m * dim + dim;
    }
  }

  lemma InnerAtMost(total: nat, dimLog: nat, tiles: nat, maxTile: nat)
    requires tiles > 0 && Blocks(total, Pow2(dimLog)) <= maxTile * tiles
    ensures Inner(total, dimLog, tiles) <= maxTile * Pow2(dimLog)
  {
    hide Blocks;
    var dim, b := Pow2(dimLog), Blocks(total, Pow2(dimLog));
    hide Pow2;
    MulMono(b, maxTile * tiles, dim);
    Reorder(maxTile, tiles, dim);
    CeilDivAtMost(b * dim, tiles, maxTile * dim);
    RoundDownFacts(CeilDiv(b * dim, tiles), dimLog);
  }

  lemma Reorder(a: int, b: int, c: int)
    ensures a * b * c == a * c * b
  {
  }

  /** Exactly when a tile keeps at least one whole block. */
  lemma InnerPositive(total: nat, dimLog: nat, tiles: nat)
    requires tiles > 0
    ensures Inner(total, dimLog, tiles) > 0 <==> (Pow2(dimLog) - 1) * tiles < Blocks(total, Pow2(dimLog)) * Pow2(dimLog)
  {
    hide Blocks;
    var dim, b := Pow2(dimLog), Blocks(total, Pow2(dimLog));
    hide Pow2;
    CeilDivAtMost(b * dim, tiles, dim - 1);
    RoundDownFacts(CeilDiv(b * dim, tiles), dimLog);
  }

  /** Never more tiles than blocks is enough for that. */
  lemma FewTilesPositive(total: nat, dimLog: nat, tiles: nat)
    requires 0 < tiles <= Blocks(total, Pow2(dimLog))
    ensures Inner(total, dimLog, tiles) > 0
  {
    hide Blocks, Inner;
    var dim, b := Pow2(dimLog), Blocks(total, Pow2(dimLog));
    hide Pow2;
    MulMono(tiles, b, dim);
    Expand(dim - 1, tiles);
    InnerPositive(total, dimLog, tiles);
  }

  // The bounds ----------------------------------------------------------------------------------------

  /** Operand tiles take at most half the scratchpad, the output tile at most half the accumulator. */
  predicate FitsHalf(cfg: Config, inner: Loop) {
    && (inner.N + inner.M) * inner.C * cfg.precision * 2 <= cfg.spadBytes
    && inner.N * inner.M * 4 * 2 <= cfg.accumBytes
  }

  /** The inner loop is whole blocks, and the outer loop runs it just often enough. */
  predicate Covers(dimLog: nat, total: nat, outer: nat, inner: nat) {
    && inner > 0 && Low(inner, dimLog) == 0
    && total <= outer * inner < total + inner
  }

  lemma RootBound(cfg: Config, a: nat, b: nat)
    requires cfg.Valid() && cfg.MaxTileIJ() > 0
    requires a <= cfg.MaxTileIJ() * cfg.Dim() && b <= cfg.MaxTileIJ() * cfg.Dim()
    ensures a * b * 4 * 2 <= cfg.accumBytes
  {
    var t, dim, mats, rows := cfg.MaxTileIJ(), cfg.Dim(), cfg.MatsInAcc(), cfg.MaxAccRows();
    DivAtMost(cfg.accumBytes, Double(dim, 4));
    DivAtMost(rows, dim);
    assert t * t <= mats && mats * dim <= rows && rows * (dim * 4 * 2) <= cfg.accumBytes;
    hide *;
    AccumProduct(a, b, t, dim, mats, rows);
  }

  lemma AccumProduct(a: nat, b: nat, t: nat, dim: nat, mats: nat, rows: nat)
    requires a <= t * dim && b <= t * dim && t * t <= mats && mats * dim <= rows
    ensures a * b * 4 * 2 <= rows * (dim * 4 * 2)
  {
    MulMono(a, t * dim, b);
    MulMono(b, t * dim, t * dim);
    SquareRegroup(t, dim);
    MulMono(t * t, mats, dim * dim);
    Regroup3(mats, dim, dim);
    MulMono(mats * dim, rows, dim);
    Regroup3(rows, dim, 8);
  }

  lemma SquareRegroup(t: int, dim: int)
    ensures (t * dim) * (t * dim) == (t * t) * (dim * dim)
  {
  }

  lemma Regroup3(a: int, b: int, c: int)
    ensures a * (b * c) == a * b * c
  {
  }

  lemma DepthBound(cfg: Config, a: nat, b: nat, c: nat)
    requires cfg.Valid() && cfg.MaxTileIJ() > 0
    requires a <= cfg.MaxTileIJ() * cfg.Dim() && b <= cfg.MaxTileIJ() * cfg.Dim()
    requires c <= cfg.MaxTileK() * cfg.Dim()
    ensures (a + b) * c * cfg.precision * 2 <= cfg.spadBytes
  {
    var t, k, dim, mats, rows := cfg.MaxTileIJ(), cfg.MaxTileK(), cfg.Dim(), cfg.MatsInPartition(), cfg.MaxSpadRows();
    DivAtMost(cfg.spadBytes, Double(dim, cfg.precision));
    DivAtMost(rows / 2, dim);
    DivAtMost(mats, t);
    assert k * t <= mats && mats * dim <= rows / 2 && rows * (dim * cfg.precision * 2) <= cfg.spadBytes;
    hide *;
    SpadProduct(a + b, c, t, k, dim, mats, rows);
    MulMono((a + b) * c, rows * dim, cfg.precision);
    Regroup3(rows, dim, cfg.precision);
    Regroup3(rows, dim * cfg.precision, 2);
  }

  lemma SpadProduct(ab: nat, c: nat, t: nat, k: nat, dim: nat, mats: nat, rows: nat)
    requires ab <= 2 * (t * dim) && c <= k * dim && k * t <= mats && mats * dim <= rows / 2
    ensures ab * c <= rows * dim
  {
    MulMono(ab, 2 * (t * dim), c);
    MulMono(c, k * dim, 2 * (t * dim));
    FourRegroup(k, t, dim);
    MulMono(k * t, mats, dim * dim);
    Regroup3(mats, dim, dim);
    MulMono(2 * (mats * dim), rows, dim);
    DoubleLeft(mats * dim, dim);
  }

  lemma FourRegroup(k: int, t: int, dim: int)
    ensures (k * dim) * (2 * (t * dim)) == 2 * ((k * t) * (dim * dim))
  {
  }

  lemma DoubleLeft(a: int, b: int)
    ensures 2 * a * b == 2 * (a * b)
  {
  }

  /** The limits on tiles are as wide as the buffers are: an output tile of t by t blocks takes half the accumulator
      exactly if t is within the limit, and operand tiles k deep half the scratchpad exactly if k is. */
  lemma LimitsAreTight(cfg: Config, t: nat, k: nat)
    requires cfg.Valid()
    ensures t <= cfg.MaxTileIJ() <==> SquareBytes(t, cfg.Dim()) * 2 <= cfg.accumBytes
    ensures cfg.MaxTileIJ() > 0 ==>
              (k <= cfg.MaxTileK() <==>
                 OperandBytes(cfg.MaxTileIJ(), k, cfg.Dim(), cfg.precision) * 2 <= cfg.spadBytes)
  {
    var dim := cfg.Dim();
    hide Pow2;
    RootLargest(cfg.MatsInAcc(), t);
    Nested(cfg.accumBytes, Double(dim, 4), dim, t * t);
    SquareRegrouped(t, dim);
    if cfg.MaxTileIJ() > 0 {
      var m := cfg.MaxTileIJ();
      hide Root;
      Quotients(cfg.MatsInPartition(), m, k);
      Halves(cfg.spadBytes, Double(dim, cfg.precision), dim, k * m);
      OperandRegrouped(m, k, dim, cfg.precision);
    }
  }

  /** Bytes of t by t blocks of 4-byte outputs, and of the two operand tiles that make them. */
  function SquareBytes(t: nat, dim: nat): nat { (t * dim) * (t * dim) * 4 }
  function OperandBytes(t: nat, k: nat, dim: nat, precision: nat): nat {
    (t * dim + t * dim) * (k * dim) * precision
  }

  lemma Quotients(a: nat, b: nat, n: nat)
    requires b > 0
    ensures n <= NatDiv(a, b) <==> n * b <= a
  {
    DivAtMost(a, b);
    if n <= a / b {
      MulMono(n, a / b, b);
    } else {
      MulMono(a / b + 1, n, b);
    }
  }

  lemma Nested(a: nat, b: nat, c: nat, n: nat)
    requires b > 0 && c > 0
    ensures n <= NatDiv(NatDiv(a, b), c) <==> n * c * b <= a
  {
    hide NatDiv;
    Quotients(NatDiv(a, b), c, n);
    Quotients(a, b, n * c);
  }

  lemma Halves(a: nat, b: nat, c: nat, n: nat)
    requires b > 0 && c > 0
    ensures n <= NatDiv(NatDiv(a, b) / 2, c) <==> n * c * 2 * b <= a
  {
    Quotients(NatDiv(a, b) / 2, c, n);
    Quotients(a, b, n * c * 2);
    hide NatDiv;
  }

  lemma RootLargest(n: nat, t: nat)
    ensures t <= Root(n) <==> t * t <= n
  {
    var r := Root(n);
    if t <= r {
      MulMono(t, r, t);
      MulMono(t, r, r);
    } else {
      MulMono(r + 1, t, r + 1);
      MulMono(r + 1, t, t);
    }
  }

  lemma SquareRegrouped(t: nat, dim: nat)
    requires dim > 0
    ensures t * t * dim * Double(dim, 4) == SquareBytes(t, dim) * 2
  {
    SquareRegroup(t, dim);
    Regroup3(t * t, dim, dim);
    assert Double(dim, 4) == dim * 8;
    Regroup3(t * t * dim, dim, 8);
  }

  lemma OperandRegrouped(m: nat, k: nat, dim: nat, precision: nat)
    requires dim > 0 && precision > 0
    ensures k * m * dim * 2 * Double(dim, precision) == OperandBytes(m, k, dim, precision) * 2
  {
    var x := k * m * dim * 2;
    Reorder4(m, k, dim);
    Regroup3(x, dim * precision, 2);
    Regroup3(x, dim, precision);
  }

  lemma Reorder4(m: nat, k: nat, dim: nat)
    ensures k * m * dim * 2 * dim == (m * dim + m * dim) * (k * dim)
  {
    FourRegroup(k, m, dim);
    Regroup3(k * m, dim, dim);
    Reorder(k * m * dim, 2, dim);
  }

  // The search ----------------------------------------------------------------------------------------

  /** Tile counts after both balancing steps. */
  function Balanced(cfg: Config, I: nat, J: nat): Counts
    requires cfg.Valid() && cfg.MaxTileIJ() > 0 && I > 0 && J > 0
  {
    var c := Counts(Tiles(I, cfg.Dim(), cfg.MaxTileIJ()), Tiles(J, cfg.Dim(), cfg.MaxTileIJ()));
    TilesEnough(I, cfg.Dim(), cfg.MaxTileIJ());
    TilesEnough(J, cfg.Dim(), cfg.MaxTileIJ());
    MulStrict(0, c.i, c.j);
    Even(Spread(c, I, J, cfg.cores), I, J, cfg.cores)
  }

  /** The tile sizes the search settles on. */
  function Chosen(cfg: Config, I: nat, J: nat, K: nat): Loop
    requires cfg.Valid() && Feasible(cfg, I, J, K)
  {
    TileCounts(cfg, I, J);
    TilesEnough(K, cfg.Dim(), cfg.MaxTileK());
    Loop(Inner(I, cfg.dimLog, Balanced(cfg, I, J).i),
         Inner(K, cfg.dimLog, Tiles(K, cfg.Dim(), cfg.MaxTileK())),
         Inner(J, cfg.dimLog, Balanced(cfg, I, J).j))
  }

  /** What has to hold before the call: the tile limits are positive, and balancing the cores leaves every
      tile more than `dim - 1` elements. */
  predicate Feasible(cfg: Config, I: nat, J: nat, K: nat)
    requires cfg.Valid()
  {
    && I > 0 && J > 0 && K > 0 && cfg.MaxTileIJ() > 0 && cfg.MaxTileK() > 0
    && (cfg.Dim() - 1) * Balanced(cfg, I, J).i < Blocks(I, cfg.Dim()) * cfg.Dim()
    && (cfg.Dim() - 1) * Balanced(cfg, I, J).j < Blocks(J, cfg.Dim()) * cfg.Dim()
  }

  /** With one core nothing is balanced, so positive limits are enough. */
  lemma OneCoreIsFeasible(cfg: Config, I: nat, J: nat, K: nat)
    requires cfg.Valid() && cfg.cores == 1 && I > 0 && J > 0 && K > 0
    requires cfg.MaxTileIJ() > 0 && cfg.MaxTileK() > 0
    ensures Feasible(cfg, I, J, K)
  {
    var c := Counts(Tiles(I, cfg.Dim(), cfg.MaxTileIJ()), Tiles(J, cfg.Dim(), cfg.MaxTileIJ()));
    TilesEnough(I, cfg.Dim(), cfg.MaxTileIJ());
    TilesEnough(J, cfg.Dim(), cfg.MaxTileIJ());
    MulStrict(0, c.i, c.j);
    SpreadGrows(c, I, J, 1);
    EvenGrows(c, I, J, 1);
    assert Balanced(cfg, I, J) == c;
    FewTilesPositive(I, cfg.dimLog, c.i);
    InnerPositive(I, cfg.dimLog, c.i);
    FewTilesPositive(J, cfg.dimLog, c.j);
    InnerPositive(J, cfg.dimLog, c.j);
  }

  /** The tile counts come from the least ones within the limit, by the two balancing steps in this order. */
  ghost predicate BalancedCounts(cfg: Config, I: nat, J: nat, c: Counts)
    requires cfg.Valid()
  {
    exists c0: Counts, c1: Counts ::
      && LeastTiles(I, cfg.MaxTileIJ() * cfg.Dim(), c0.i) && LeastTiles(J, cfg.MaxTileIJ() * cfg.Dim(), c0.j)
      && ReachesCores(c0, c1, I, J, cfg.cores) && AddsRest(c1, c, I, J, cfg.cores)
  }

  /** What the chosen tile is, said without the functions that compute it. */
  lemma ChosenIsTiling(cfg: Config, I: nat, J: nat, K: nat)
    requires cfg.Valid() && Feasible(cfg, I, J, K)
    ensures exists c: Counts, k: nat ::
              && BalancedCounts(cfg, I, J, c) && LeastTiles(K, cfg.MaxTileK() * cfg.Dim(), k)
              && LargestInner(I, cfg.dimLog, c.i, Chosen(cfg, I, J, K).N)
              && LargestInner(J, cfg.dimLog, c.j, Chosen(cfg, I, J, K).M)
              && LargestInner(K, cfg.dimLog, k, Chosen(cfg, I, J, K).C)
  {
    hide Tiles, Inner, Blocks, Config.MaxTileIJ, Config.MaxTileK, Pow2, LargestInner, LeastTiles, Feasible, Balanced;
    FeasibleLimits(cfg, I, J, K);
    BalancedIs(cfg, I, J);
    TileCounts(cfg, I, J);
    TilesEnough(K, cfg.Dim(), cfg.MaxTileK());
    TilesAreLeast(K, cfg.Dim(), cfg.MaxTileK());
    InnerIsLargest(I, cfg.dimLog, Balanced(cfg, I, J).i);
    InnerIsLargest(J, cfg.dimLog, Balanced(cfg, I, J).j);
    InnerIsLargest(K, cfg.dimLog, Tiles(K, cfg.Dim(), cfg.MaxTileK()));
  }

  lemma FeasibleLimits(cfg: Config, I: nat, J: nat, K: nat)
    requires cfg.Valid() && Feasible(cfg, I, J, K)
    ensures I > 0 && J > 0 && K > 0 && cfg.MaxTileIJ() > 0 && cfg.MaxTileK() > 0
  {
    hide Blocks, Balanced, Config.MaxTileIJ, Config.MaxTileK, Pow2;
  }

  lemma BalancedIs(cfg: Config, I: nat, J: nat)
    requires cfg.Valid() && cfg.MaxTileIJ() > 0 && I > 0 && J > 0
    ensures BalancedCounts(cfg, I, J, Balanced(cfg, I, J))
  {
    hide Tiles, Config.MaxTileIJ, Pow2, Spread, Even, Blocks, LeastTiles, ReachesCores, AddsRest;
    var c := Counts(Tiles(I, cfg.Dim(), cfg.MaxTileIJ()), Tiles(J, cfg.Dim(), cfg.MaxTileIJ()));
    TilesEnough(I, cfg.Dim(), cfg.MaxTileIJ());
    TilesEnough(J, cfg.Dim(), cfg.MaxTileIJ());
    TilesAreLeast(I, cfg.Dim(), cfg.MaxTileIJ());
    TilesAreLeast(J, cfg.Dim(), cfg.MaxTileIJ());
    MulStrict(0, c.i, c.j);
    SpreadReachesCores(c, I, J, cfg.cores);
    EvenAddsRest(Spread(c, I, J, cfg.cores), I, J, cfg.cores);
  }

  /** `gemm_mapping`. A division by zero, which ends the program, is the error result. */
  method GemmMapping(cfg: Config, N: nat, M: nat, C: nat) returns (r: Result<Mapping>)
    requires cfg.Valid()
    ensures r.Success? <==> Feasible(cfg, N, M, C)
    ensures r.Success? ==>
              && r.value.total == Loop(N, C, M)
              && r.value.inner == Chosen(cfg, N, M, C)
              && FitsHalf(cfg, r.value.inner)
              && Covers(cfg.dimLog, N, r.value.outer.N, r.value.inner.N)
              && Covers(cfg.dimLog, M, r.value.outer.M, r.value.inner.M)
              && Covers(cfg.dimLog, C, r.value.outer.C, r.value.inner.C)
  {
    hide *;
    var dim := cfg.Dim();
    var maxIJ := cfg.MaxTileIJ();
    if maxIJ == 0 {
      Infeasible(cfg, N, M, C);
      return DivisionByZero;
    }
    var maxK := cfg.MaxTileK();
    if maxK == 0 || N == 0 || M == 0 || C == 0 {
      Infeasible(cfg, N, M, C);
      return DivisionByZero;
    }
    var tileI, tileJ, tileK := Tiles(N, dim, maxIJ), Tiles(M, dim, maxIJ), Tiles(C, dim, maxK);
    r := Finish(cfg, N, M, C, tileI, tileJ, tileK);
  }

  lemma Infeasible(cfg: Config, I: nat, J: nat, K: nat)
    requires cfg.Valid()
    requires I == 0 || J == 0 || K == 0 || cfg.MaxTileIJ() == 0 || cfg.MaxTileK() == 0
    ensures !Feasible(cfg, I, J, K)
  {
    hide Blocks, Balanced, Config.MaxTileIJ, Config.MaxTileK, Pow2;
  }

  /** The second half of `gemm_mapping`: balance the cores, size the tiles, recount them. */
  method Finish(cfg: Config, N: nat, M: nat, C: nat, tileI0: nat, tileJ0: nat, tileK: nat) returns (r: Result<Mapping>)
    requires cfg.Valid() && N > 0 && M > 0 && C > 0 && cfg.MaxTileIJ() > 0 && cfg.MaxTileK() > 0
    requires tileI0 == Tiles(N, cfg.Dim(), cfg.MaxTileIJ()) && tileJ0 == Tiles(M, cfg.Dim(), cfg.MaxTileIJ())
    requires tileK == Tiles(C, cfg.Dim(), cfg.MaxTileK())
    ensures r.Success? <==> Feasible(cfg, N, M, C)
    ensures r.Success? ==>
              && r.value.total == Loop(N, C, M)
              && r.value.inner == Chosen(cfg, N, M, C)
              && FitsHalf(cfg, r.value.inner)
              && Covers(cfg.dimLog, N, r.value.outer.N, r.value.inner.N)
              && Covers(cfg.dimLog, M, r.value.outer.M, r.value.inner.M)
              && Covers(cfg.dimLog, C, r.value.outer.C, r.value.inner.C)
  {
    hide Tiles, Inner, FitsHalf, Covers, Blocks, Config.MaxTileIJ, Config.MaxTileK, Pow2;
    var tileI, tileJ := tileI0, tileJ0;
    TilesEnough(N, cfg.Dim(), cfg.MaxTileIJ());
    TilesEnough(M, cfg.Dim(), cfg.MaxTileIJ());
    MulStrict(0, tileI, tileJ);
    var numTiles := tileI * tileJ;
    if numTiles < cfg.cores {
      var increase := CeilDiv(cfg.cores, numTiles);
      if M > N && M > cfg.cores {
        tileJ := tileJ * increase;
      } else if N > M && N > cfg.cores {
        tileI := tileI * increase;
      }
      numTiles := tileI * tileJ;
    }
    if numTiles % cfg.cores != 0 {
      var increase := numTiles % cfg.cores;
      if M > N && M > cfg.cores {
        tileJ := tileJ + increase;
      } else if N > M && N > cfg.cores {
        tileI := tileI + increase;
      }
    }
    assert Balanced(cfg, N, M) == Counts(tileI, tileJ);
    TileCounts(cfg, N, M);
    SizeFacts(cfg, N, tileI, cfg.MaxTileIJ());
    SizeFacts(cfg, M, tileJ, cfg.MaxTileIJ());
    DepthFacts(cfg, C, tileK);
    var innerI, innerJ, innerK := Inner(N, cfg.dimLog, tileI), Inner(M, cfg.dimLog, tileJ), Inner(C, cfg.dimLog, tileK);
    if innerI == 0 || innerJ == 0 || innerK == 0 {
      return DivisionByZero;
    }
    tileI, tileJ := CeilDiv(N, innerI), CeilDiv(M, innerJ);
    var outerK := CeilDiv(C, innerK);
    InnerCovers(cfg, N, innerI);
    InnerCovers(cfg, M, innerJ);
    InnerCovers(cfg, C, innerK);
    Fitting(cfg, innerI, innerJ, innerK);
    r := Success(Mapping(Loop(N, C, M), Loop(tileI, outerK, tileJ), Loop(innerI, innerK, innerJ)));
  }

  lemma TileCounts(cfg: Config, I: nat, J: nat)
    requires cfg.Valid() && cfg.MaxTileIJ() > 0 && I > 0 && J > 0
    ensures Balanced(cfg, I, J).i >= Tiles(I, cfg.Dim(), cfg.MaxTileIJ()) > 0
    ensures Balanced(cfg, I, J).j >= Tiles(J, cfg.Dim(), cfg.MaxTileIJ()) > 0
  {
    hide Tiles, Config.MaxTileIJ, Pow2, Spread, Even, Blocks;
    var c := Counts(Tiles(I, cfg.Dim(), cfg.MaxTileIJ()), Tiles(J, cfg.Dim(), cfg.MaxTileIJ()));
    TilesEnough(I, cfg.Dim(), cfg.MaxTileIJ());
    TilesEnough(J, cfg.Dim(), cfg.MaxTileIJ());
    MulStrict(0, c.i, c.j);
    SpreadGrows(c, I, J, cfg.cores);
    EvenGrows(Spread(c, I, J, cfg.cores), I, J, cfg.cores);
  }

  lemma SizeFacts(cfg: Config, total: nat, tiles: nat, maxTile: nat)
    requires total > 0 && maxTile > 0
    requires tiles >= Tiles(total, cfg.Dim(), maxTile) > 0
    ensures Inner(total, cfg.dimLog, tiles) <= maxTile * cfg.Dim()
    ensures Inner(total, cfg.dimLog, tiles) > 0 <==> (cfg.Dim() - 1) * tiles < Blocks(total, cfg.Dim()) * cfg.Dim()
    ensures Low(Inner(total, cfg.dimLog, tiles), cfg.dimLog) == 0
  {
    hide Tiles, Blocks, Pow2;
    TilesEnough(total, cfg.Dim(), maxTile);
    MulMono(Tiles(total, cfg.Dim(), maxTile), tiles, maxTile);
    InnerAtMost(total, cfg.dimLog, tiles, maxTile);
    InnerPositive(total, cfg.dimLog, tiles);
    var x := CeilDiv(Blocks(total, Pow2(cfg.dimLog)) * Pow2(cfg.dimLog), tiles);
    RoundDownFacts(x, cfg.dimLog);
    SplitUnique(RoundDown(x, cfg.dimLog), cfg.dimLog, Shr(x, cfg.dimLog), 0);
  }

  lemma DepthFacts(cfg: Config, total: nat, tiles: nat)
    requires cfg.Valid() && total > 0 && cfg.MaxTileIJ() > 0 && cfg.MaxTileK() > 0
    requires tiles == Tiles(total, cfg.Dim(), cfg.MaxTileK())
    ensures tiles > 0
    ensures 0 < Inner(total, cfg.dimLog, tiles) <= cfg.MaxTileK() * cfg.Dim()
    ensures Low(Inner(total, cfg.dimLog, tiles), cfg.dimLog) == 0
  {
    hide Tiles, Blocks, Pow2, Config.MaxTileIJ, Config.MaxTileK;
    TilesEnough(total, cfg.Dim(), cfg.MaxTileK());
    SizeFacts(cfg, total, tiles, cfg.MaxTileK());
    FewTilesPositive(total, cfg.dimLog, tiles);
  }

  lemma InnerCovers(cfg: Config, total: nat, inner: nat)
    requires inner > 0 && Low(inner, cfg.dimLog) == 0
    ensures Covers(cfg.dimLog, total, CeilDiv(total, inner), inner)
  {
    CeilDivCovers(total, inner);
  }

  lemma Fitting(cfg: Config, a: nat, b: nat, c: nat)
    requires cfg.Valid() && cfg.MaxTileIJ() > 0
    requires a <= cfg.MaxTileIJ() * cfg.Dim() && b <= cfg.MaxTileIJ() * cfg.Dim()
    requires c <= cfg.MaxTileK() * cfg.Dim()
    ensures FitsHalf(cfg, Loop(a, c, b))
  {
    hide Config.MaxTileIJ, Config.MaxTileK, Pow2;
    RootBound(cfg, a, b);
    DepthBound(cfg, a, b, c);
  }
}
