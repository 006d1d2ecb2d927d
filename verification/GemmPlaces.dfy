/** Where the program of a tile of a matrix product puts its pieces. ONNXim/src/operations/GemmWS.cc:134-290. */
module GemmPlaces {
  import opened Numbers
  import opened Pow2s
  import opened Systolic
  import opened GemmProgram

  /** A piece of the tile starts at column m and row n. */
  predicate IsColumn(p: Product, m: nat)
    requires p.loop > 0
  {
    p.HasM(m) && m % p.loop == 0
  }

  predicate IsRow(p: Product, n: nat)
    requires p.loop > 0
  {
    p.HasN(n) && n % p.loop == 0
  }

  lemma NextStart(a: nat, b: nat, loop: nat)
    requires loop > 0 && a % loop == b % loop == 0
    ensures (a + loop) % loop == 0
    ensures a < b ==> a + loop <= b
  {
    var i, j := a / loop, b / loop;
    assert a == i * loop && b == j * loop;
    Shifted(i, loop);
    if a < b && j <= i {
      MulMono(j, i, loop);
    }
    if i < j {
      MulMono(i + 1, j, loop);
      assert (i + 1) * loop == i * loop + loop;
    }
  }

  lemma Shifted(i: nat, loop: nat)
    requires loop > 0
    ensures (i * loop + loop) % loop == 0
  {
    assert i * loop + loop == (i + 1) * loop;
    WholeMultiple(i + 1, loop);
  }

  lemma WholeMultiple(i: nat, loop: nat)
    requires loop > 0
    ensures (i * loop) % loop == 0
  {
    RemainderUnique(i * loop, loop, i, 0);
  }

  lemma StartsAtZero(loop: nat)
    requires loop > 0
    ensures 0 % loop == 0
  {
  }

  // Which pieces the program has ----------------------------------------------------------------------

  lemma {:induction false} RowProductPiece(p: Product, m: nat, n: nat, x: Inst) returns (n': nat)
    requires p.loop > 0 && x in RowMultiplies(p, m, n) && n % p.loop == 0
    ensures IsRow(p, n') && x == p.Multiply(m, n')
    decreases p.inN - n
  {
    hide Product.Multiply;
    if x in Steps(p, m, n, 0) {
      StepsMultiply(p, m, n, 0, x);
      n' := n;
    } else {
      NextStart(n, n, p.loop);
      n' := RowProductPiece(p, m, n + p.loop, x);
    }
  }

  lemma {:induction false} ProductPiece(p: Product, m: nat, x: Inst) returns (m': nat, n': nat)
    requires p.loop > 0 && x in Multiplies(p, m) && m % p.loop == 0
    ensures IsColumn(p, m') && IsRow(p, n') && x == p.Multiply(m', n')
    decreases p.inM - m
  {
    hide Product.Multiply;
    if x in RowMultiplies(p, m, 0) {
      m' := m;
      n' := RowProductPiece(p, m, 0, x);
    } else {
      NextStart(m, m, p.loop);
      m', n' := ProductPiece(p, m + p.loop, x);
    }
  }

  lemma {:induction false} RowStorePiece(p: Product, m: nat, n: nat, x: Inst) returns (n': nat)
    requires p.loop > 0 && x in RowStores(p, m, n) && n % p.loop == 0
    ensures IsRow(p, n') && x == p.Store(m, n')
    decreases p.inN - n
  {
    hide Product.Store;
    if x == p.Store(m, n) {
      n' := n;
    } else {
      NextStart(n, n, p.loop);
      n' := RowStorePiece(p, m, n + p.loop, x);
    }
  }

  lemma {:induction false} StorePiece(p: Product, m: nat, x: Inst) returns (m': nat, n': nat)
    requires p.loop > 0 && x in Stores(p, m) && m % p.loop == 0
    ensures IsColumn(p, m') && IsRow(p, n') && x == p.Store(m', n')
    decreases p.inM - m
  {
    hide Product.Store;
    if x in RowStores(p, m, 0) {
      m' := m;
      n' := RowStorePiece(p, m, 0, x);
    } else {
      NextStart(m, m, p.loop);
      m', n' := StorePiece(p, m + p.loop, x);
    }
  }

  lemma {:induction false} RowHas(p: Product, m: nat, from: nat, n: nat)
    requires p.loop > 0 && from % p.loop == 0 && IsRow(p, n) && from <= n && p.Depth() > 0
    ensures p.Multiply(m, n) in RowMultiplies(p, m, from) && p.Store(m, n) in RowStores(p, m, from)
    decreases n - from
  {
    hide Product.Multiply, Product.Store;
    if from < n {
      NextStart(from, n, p.loop);
      RowHas(p, m, from + p.loop, n);
    } else {
      assert p.Multiply(m, n) in Steps(p, m, n, 0);
    }
  }

  lemma {:induction false} TileHas(p: Product, from: nat, m: nat, n: nat)
    requires p.loop > 0 && from % p.loop == 0 && IsColumn(p, m) && IsRow(p, n) && from <= m && p.Depth() > 0
    ensures p.Multiply(m, n) in Multiplies(p, from) && p.Store(m, n) in Stores(p, from)
    decreases m - from
  {
    hide Product.Multiply, Product.Store;
    if from < m {
      NextStart(from, m, p.loop);
      TileHas(p, from + p.loop, m, n);
    } else {
      StartsAtZero(p.loop);
      RowHas(p, m, 0, n);
    }
  }

  // Where they lie ------------------------------------------------------------------------------------

  /** Positions of a tile that is `width` wide, row after row. */
  lemma RowMajor(width: nat, m: nat, n: nat, m': nat, n': nat, unit: nat)
    requires m < width && m' < width && unit > 0
    ensures (n * width + m) * unit == (n' * width + m') * unit <==> m == m' && n == n'
  {
    var a, b := n * width + m, n' * width + m';
    if a < b {
      StrictProduct(a, b, unit);
    } else if b < a {
      StrictProduct(b, a, unit);
    }
    if a == b {
      SameRow(width, m, n, m', n');
    }
  }

  lemma StrictProduct(a: nat, b: nat, unit: nat)
    requires a < b && unit > 0
    ensures a * unit < b * unit
  {
    MulStrict(a, b, unit);
  }

  lemma SameRow(width: nat, m: nat, n: nat, m': nat, n': nat)
    requires m < width && m' < width && n * width + m == n' * width + m'
    ensures m == m' && n == n'
  {
    if n < n' {
      MulMono(n + 1, n', width);
      Expand(n, width);
    } else if n' < n {
      MulMono(n' + 1, n, width);
      Expand(n', width);
    }
  }

  lemma OutApart(p: Product, m: nat, n: nat, m': nat, n': nat)
    requires p.precision > 0 && m < p.inM && m' < p.inM
    ensures p.OutAt(m, n) == p.OutAt(m', n') <==> m == m' && n == n'
  {
    RowMajor(p.inM, m, n, m', n', p.precision);
  }

  /** All outputs lie in the tile's own area of the accumulator. */
  lemma OutInside(p: Product, m: nat, n: nat)
    requires m < p.inM && n < p.inN
    ensures ACCUM_SPAD_BASE <= p.OutAt(m, n)
    ensures p.OutAt(m, n) + p.precision <= ACCUM_SPAD_BASE + p.inN * p.inM * p.precision
  {
    MulMono(n + 1, p.inN, p.inM);
    Expand(n, p.inM);
    MulMono(n * p.inM + m + 1, p.inN * p.inM, p.precision);
    Expand(n * p.inM + m, p.precision);
  }

  lemma Operands(p: Product, m: nat, n: nat, m': nat, n': nat)
    requires p.precision > 0 && p.inC > 0 && n < p.inN && n' < p.inN
    ensures p.ActAt(n) == p.ActAt(n') <==> n == n'
    ensures p.WeightAt(m) == p.WeightAt(m') <==> m == m'
    ensures p.ActAt(n) != p.WeightAt(m')
  {
    Strided(p.inC, p.precision, n, n');
    Strided(p.inC, p.precision, m, m');
    Strided(p.inC, p.precision, n, p.inN);
  }

  lemma Strided(c: nat, unit: nat, a: nat, b: nat)
    requires c > 0 && unit > 0
    ensures a * c * unit == b * c * unit <==> a == b
    ensures a < b ==> a * c * unit < b * c * unit
  {
    if a < b {
      MulStrict(a, b, c);
      MulStrict(a * c, b * c, unit);
    } else if b < a {
      MulStrict(b, a, c);
      MulStrict(b * c, a * c, unit);
    }
  }

  /** A piece of the tile: where its columns and its rows start. */
  datatype Piece = Piece(m: nat, n: nat)

  ghost predicate IsPiece(p: Product, a: Piece)
    requires p.loop > 0
  {
    IsColumn(p, a.m) && IsRow(p, a.n)
  }

  function ProductOf(p: Product, a: Piece): Inst { p.Multiply(a.m, a.n) }
  function StoreOf(p: Product, a: Piece): Inst { p.Store(a.m, a.n) }

  /** The program multiplies and, in the last tile, stores every piece of the tile, and nothing else. */
  lemma ProgramHasPieces(p: Product, x: Inst)
    requires FromMapping(p)
    ensures x in Multiplies(p, 0) <==> exists a :: IsPiece(p, a) && x == ProductOf(p, a)
    ensures x in Stores(p, 0) <==> exists a :: IsPiece(p, a) && x == StoreOf(p, a)
  {
    hide Product.Multiply, Product.Store;
    StartsAtZero(p.loop);
    if x in Multiplies(p, 0) {
      var m, n := ProductPiece(p, 0, x);
      assert IsPiece(p, Piece(m, n)) && x == ProductOf(p, Piece(m, n));
    }
    if x in Stores(p, 0) {
      var m, n := StorePiece(p, 0, x);
      assert IsPiece(p, Piece(m, n)) && x == StoreOf(p, Piece(m, n));
    }
    forall a | IsPiece(p, a)
      ensures ProductOf(p, a) in Multiplies(p, 0) && StoreOf(p, a) in Stores(p, 0)
    {
      TileHas(p, 0, a.m, a.n);
    }
  }

  /** Products have the same place exactly if they are of the same piece, inside the tile's area of the accumulator; the
      store of a piece names that place and no other piece's. A product reads what the loads of its own row and column
      piece bring, and these places differ from piece to piece. The bias is added to the first row piece. */
  lemma PiecesApart(p: Product, a: Piece, b: Piece)
    requires FromMapping(p) && p.precision > 0 && IsPiece(p, a) && IsPiece(p, b)
    ensures ProductOf(p, a).dest == ProductOf(p, b).dest <==> a == b
    ensures StoreOf(p, a).dest == ProductOf(p, b).dest <==> a == b
    ensures ACCUM_SPAD_BASE <= ProductOf(p, a).dest
    ensures ProductOf(p, a).dest + p.precision <= ACCUM_SPAD_BASE + p.inN * p.inM * p.precision
    ensures ProductOf(p, a).srcs == [p.Acts(a.n).dest, p.Weights(a.m).dest]
    ensures p.Acts(a.n).dest == p.Acts(b.n).dest <==> a.n == b.n
    ensures p.Weights(a.m).dest == p.Weights(b.m).dest <==> a.m == b.m
    ensures p.Acts(a.n).dest != p.Weights(b.m).dest
    ensures p.Bias(a.m).dest == ProductOf(p, b).dest <==> b == Piece(a.m, 0)
  {
    hide Product.OutAt, Product.ActAt, Product.WeightAt;
    OutApart(p, a.m, a.n, b.m, b.n);
    OutApart(p, a.m, 0, b.m, b.n);
    OutInside(p, a.m, a.n);
    Operands(p, a.m, a.n, b.m, b.n);
    BiasAt(p, a.m);
  }

  lemma BiasAt(p: Product, m: nat)
    ensures p.Bias(m).dest == p.OutAt(m, 0)
  {
    assert 0 * p.inM + m == m;
  }

  /** Each load asks for the addresses of its own piece, and each store writes to those of its own. */
  lemma PiecesAsk(p: Product, a: Piece)
    ensures p.Acts(a.n).srcs == p.actsFrom(a.n) && p.Weights(a.m).srcs == p.weightsFrom(a.m)
    ensures p.Bias(a.m).srcs == p.biasFrom(a.m) && StoreOf(p, a).srcs == p.outTo(a.m, a.n)
  {
  }

  // How much they hold --------------------------------------------------------------------------------

  /** The rows of the pieces from n on. */
  ghost function RowsFrom(p: Product, n: nat): nat
    requires p.loop > 0
    decreases p.inN - n
  {
    if p.HasN(n) then p.Multiply(0, n).computeSize + RowsFrom(p, n + p.loop) else 0
  }

  /** The sizes of a column of pieces add up to the rows of the tile that lie inside the product. */
  lemma {:induction false} RowsAddUp(p: Product, n: nat)
    requires p.loop > 0 && n % p.loop == 0 && p.inN % p.loop == 0
    ensures RowsFrom(p, n) == if p.HasN(n) then Min(p.inN, p.totalN - p.nOffset) - n else 0
    decreases p.inN - n
  {
    if p.HasN(n) {
      NextStart(n, p.inN, p.loop);
      RowsAddUp(p, n + p.loop);
    }
  }

  lemma AllRows(p: Product, a: Piece)
    requires FromMapping(p) && p.inN % p.loop == 0
    ensures RowsFrom(p, 0) == Min(p.inN, p.totalN - p.nOffset) && p.Depth() == Min(p.inC, p.totalC - p.cOffset)
    ensures ProductOf(p, a).computeSize == p.Multiply(0, a.n).computeSize == ProductOf(p, a).size
  {
    StartsAtZero(p.loop);
    RowsAddUp(p, 0);
  }

  /** A piece is multiplied once for every array's height of the tile's depth inside the product. */
  lemma {:induction false} StepCount(p: Product, m: nat, n: nat, c: nat)
    requires p.loop > 0
    ensures |Steps(p, m, n, c)| == if c < p.Depth() then CeilDiv(p.Depth() - c, p.loop) else 0
    decreases p.Depth() - c
  {
    if c < p.Depth() {
      StepCount(p, m, n, c + p.loop);
      OneMorePiece(p.Depth() - c, p.loop);
    }
  }

  lemma OneMorePiece(d: nat, loop: nat)
    requires d > 0 && loop > 0
    ensures CeilDiv(d, loop) == 1 + if d > loop then CeilDiv(d - loop, loop) else 0
  {
    if d > loop {
      var q := CeilDiv(d - loop, loop);
      CeilDivUnique(d - loop, loop, q);
      Expand(q, loop);
      CeilDivUnique(d, loop, q + 1);
    } else {
      CeilDivUnique(d, loop, 1);
    }
  }

  // Nothing is loaded or stored twice -----------------------------------------------------------------

  ghost predicate Distinct(s: seq<Inst>) {
    forall i, j :: 0 <= i < j < |s| ==> s[i].dest != s[j].dest
  }

  lemma DistinctConcat(a: seq<Inst>, b: seq<Inst>)
    requires Distinct(a) && Distinct(b) && forall x, y :: x in a && y in b ==> x.dest != y.dest
    ensures Distinct(a + b)
  {
    forall i, j | 0 <= i < j < |a + b|
      ensures (a + b)[i].dest != (a + b)[j].dest
    {
      if i < |a| <= j {
        assert (a + b)[i] in a && (a + b)[j] in b;
      }
    }
  }

  /** What the loads of the column pieces from `from` on are. */
  ghost predicate IsLoad(p: Product, from: nat, x: Inst)
    requires p.loop > 0
  {
    || (exists m :: from <= m && IsColumn(p, m) && x == p.Weights(m))
    || (p.LoadsBias() && exists m :: from <= m && IsColumn(p, m) && x == p.Bias(m))
    || (from == 0 && exists n :: IsRow(p, n) && x == p.Acts(n))
  }

  lemma {:induction false} ActPiece(p: Product, n: nat, x: Inst) returns (n': nat)
    requires p.loop > 0 && x in ActLoads(p, n) && n % p.loop == 0
    ensures n <= n' && IsRow(p, n') && x == p.Acts(n')
    decreases p.inN - n
  {
    hide Product.Acts;
    if x == p.Acts(n) {
      n' := n;
    } else {
      NextStart(n, n, p.loop);
      n' := ActPiece(p, n + p.loop, x);
    }
  }

  lemma {:induction false} LoadIs(p: Product, from: nat, x: Inst)
    requires p.loop > 0 && x in Loads(p, from) && from % p.loop == 0
    ensures IsLoad(p, from, x)
    decreases p.inM - from
  {
    hide Product.Acts, Product.Weights, Product.Bias;
    if x in LoadsAt(p, from) {
      if from == 0 && x in ActLoads(p, 0) {
        var n := ActPiece(p, 0, x);
      }
    } else {
      NextStart(from, from, p.loop);
      LoadIs(p, from + p.loop, x);
    }
  }

  lemma {:induction false} ActIn(p: Product, from: nat, n: nat)
    requires p.loop > 0 && from % p.loop == 0 && IsRow(p, n) && from <= n
    ensures p.Acts(n) in ActLoads(p, from)
    decreases n - from
  {
    hide Product.Acts;
    if from < n {
      NextStart(from, n, p.loop);
      ActIn(p, from + p.loop, n);
    }
  }

  lemma {:induction false} ColumnIn(p: Product, from: nat, m: nat)
    requires p.loop > 0 && from % p.loop == 0 && IsColumn(p, m) && from <= m
    ensures p.Weights(m) in Loads(p, from) && (p.LoadsBias() ==> p.Bias(m) in Loads(p, from))
    decreases m - from
  {
    hide Product.Weights, Product.Bias;
    if from < m {
      NextStart(from, m, p.loop);
      ColumnIn(p, from + p.loop, m);
    } else {
      assert p.Weights(m) in LoadsAt(p, m);
    }
  }

  lemma LoadsApart(p: Product, m: nat, m': nat, n: nat, n': nat)
    requires FromMapping(p) && p.precision > 0 && p.inC > 0 && p.HasM(m) && p.HasM(m') && p.HasN(n) && p.HasN(n')
    ensures m != m' ==> p.Weights(m).dest != p.Weights(m').dest && p.Bias(m).dest != p.Bias(m').dest
    ensures n != n' ==> p.Acts(n).dest != p.Acts(n').dest
    ensures p.Weights(m).dest != p.Bias(m').dest && p.Acts(n).dest != p.Bias(m').dest
    ensures p.Acts(n).dest != p.Weights(m').dest
  {
    hide Product.ActAt, Product.WeightAt, Product.OutAt;
    Operands(p, m, n, m', n');
    OutApart(p, m, 0, m', 0);
    OutInside(p, m', 0);
    BiasAt(p, m);
    BiasAt(p, m');
    BelowOutputs(p, m, n);
    hide Product.Bias;
  }

  lemma BelowOutputs(p: Product, m: nat, n: nat)
    requires FromMapping(p) && p.HasM(m) && p.HasN(n)
    ensures p.ActAt(n) < ACCUM_SPAD_BASE && p.WeightAt(m) < ACCUM_SPAD_BASE && p.inN > 0
  {
    hide Product.ActAt, Product.WeightAt;
  }

  lemma {:induction false} ActsDistinct(p: Product, n: nat)
    requires FromMapping(p) && p.precision > 0 && p.inC > 0 && n % p.loop == 0
    ensures Distinct(ActLoads(p, n))
    decreases p.inN - n
  {
    hide Product.Acts, FromMapping, Distinct;
    LoopPositive(p);
    if p.HasN(n) {
      NextStart(n, n, p.loop);
      ActsDistinct(p, n + p.loop);
      forall y | y in ActLoads(p, n + p.loop)
        ensures y.dest != p.Acts(n).dest
      {
        var n' := ActPiece(p, n + p.loop, y);
        LoadsApart(p, 0, 0, n, n');
      }
      OneIsDistinct(p.Acts(n));
      DistinctConcat([p.Acts(n)], ActLoads(p, n + p.loop));
    } else {
      NoneIsDistinct();
    }
  }

  lemma LoopPositive(p: Product)
    requires FromMapping(p)
    ensures p.loop > 0 && p.HasM(0) && p.HasN(0) && p.Depth() > 0
  {
  }

  lemma OneIsDistinct(x: Inst)
    ensures Distinct([x])
  {
  }

  lemma NoneIsDistinct()
    ensures Distinct([])
  {
  }

  lemma RowLoadsDistinct(p: Product, m: nat)
    requires FromMapping(p) && p.precision > 0 && p.inC > 0 && IsColumn(p, m)
    ensures Distinct(LoadsAt(p, m))
  {
    hide Product.Acts, Product.Weights, Product.Bias, FromMapping, Distinct;
    LoopPositive(p);
    StartsAtZero(p.loop);
    var acts := if m == 0 then ActLoads(p, 0) else [];
    NoneIsDistinct();
    ActsDistinct(p, 0);
    OneIsDistinct(p.Weights(m));
    OneIsDistinct(p.Bias(m));
    LoadsApart(p, m, m, 0, 0);
    forall y | y in acts
      ensures y.dest != p.Weights(m).dest && y.dest != p.Bias(m).dest
    {
      var n := ActPiece(p, 0, y);
      LoadsApart(p, m, m, n, n);
    }
    DistinctConcat([p.Weights(m)], acts);
    DistinctConcat(if p.LoadsBias() then [p.Bias(m)] else [], [p.Weights(m)] + acts);
  }

  /** A load of the column m, and one of a later column. */
  lemma ColumnsApart(p: Product, m: nat, x: Inst, y: Inst)
    requires FromMapping(p) && p.precision > 0 && p.inC > 0 && IsColumn(p, m)
    requires x in LoadsAt(p, m) && IsLoad(p, m + p.loop, y)
    ensures x.dest != y.dest
  {
    hide Product.Acts, Product.Weights, Product.Bias, FromMapping;
    LoopPositive(p);
    StartsAtZero(p.loop);
    var m' :| m + p.loop <= m' && IsColumn(p, m') && (y == p.Weights(m') || y == p.Bias(m'));
    if m == 0 && x in ActLoads(p, 0) {
      var n := ActPiece(p, 0, x);
      LoadsApart(p, m, m', n, n);
    } else {
      LoadsApart(p, m, m', 0, 0);
      LoadsApart(p, m', m, 0, 0);
    }
  }

  lemma {:induction false} LoadsDistinct(p: Product, m: nat)
    requires FromMapping(p) && p.precision > 0 && p.inC > 0 && m % p.loop == 0
    ensures Distinct(Loads(p, m))
    decreases p.inM - m
  {
    hide FromMapping, Distinct, LoadsAt, IsLoad;
    LoopPositive(p);
    if p.HasM(m) {
      NextStart(m, m, p.loop);
      RowLoadsDistinct(p, m);
      LoadsDistinct(p, m + p.loop);
      forall x, y | x in LoadsAt(p, m) && y in Loads(p, m + p.loop)
        ensures x.dest != y.dest
      {
        LoadIs(p, m + p.loop, y);
        ColumnsApart(p, m, x, y);
      }
      DistinctConcat(LoadsAt(p, m), Loads(p, m + p.loop));
    } else {
      NoneIsDistinct();
    }
  }

  /** The program loads the weights of every column piece and the activations of every row piece, and the bias of
      every column piece if it loads any; nothing else, and no place twice. */
  lemma LoadsArePieces(p: Product, x: Inst)
    requires FromMapping(p) && p.precision > 0 && p.inC > 0
    ensures x in Loads(p, 0) <==> IsLoad(p, 0, x)
    ensures Distinct(Loads(p, 0))
  {
    hide Product.Acts, Product.Weights, Product.Bias, Distinct;
    StartsAtZero(p.loop);
    LoadsDistinct(p, 0);
    if x in Loads(p, 0) {
      LoadIs(p, 0, x);
    }
    forall m | IsColumn(p, m)
      ensures p.Weights(m) in Loads(p, 0) && (p.LoadsBias() ==> p.Bias(m) in Loads(p, 0))
    {
      ColumnIn(p, 0, m);
    }
    forall n | IsRow(p, n)
      ensures p.Acts(n) in Loads(p, 0)
    {
      ActIn(p, 0, n);
      assert p.Acts(n) in LoadsAt(p, 0);
    }
  }

  // How often -----------------------------------------------------------------------------------------

  lemma {:induction false} StepsOfPiece(p: Product, m: nat, n: nat, c: nat, x: Inst)
    requires p.loop > 0
    ensures multiset(Steps(p, m, n, c))[x] == if x == p.Multiply(m, n) then |Steps(p, m, n, c)| else 0
    decreases p.Depth() - c
  {
    hide Product.Multiply;
    if c < p.Depth() {
      StepsOfPiece(p, m, n, c + p.loop, x);
      assert multiset([p.Multiply(m, n)] + Steps(p, m, n, c + p.loop))
          == multiset{p.Multiply(m, n)} + multiset(Steps(p, m, n, c + p.loop));
    }
  }

  lemma SameProduct(p: Product, a: Piece, b: Piece)
    requires p.precision > 0 && a.m < p.inM && b.m < p.inM
    ensures ProductOf(p, a) == ProductOf(p, b) <==> a == b
    ensures StoreOf(p, a) == StoreOf(p, b) ==> a == b
  {
    OutApart(p, a.m, a.n, b.m, b.n);
    hide Product.OutAt, Product.ActAt, Product.WeightAt;
  }

  lemma {:induction false} RowTimes(p: Product, m: nat, from: nat, a: Piece)
    requires p.loop > 0 && p.precision > 0 && m < p.inM && IsPiece(p, a) && from % p.loop == 0
    ensures multiset(RowMultiplies(p, m, from))[ProductOf(p, a)]
         == if a.m == m && from <= a.n then CeilDiv(p.Depth(), p.loop) else 0
    decreases p.inN - from
  {
    hide ProductOf, CeilDiv, Steps, IsPiece, Product.Depth;
    if p.HasN(from) {
      NextRow(p, from, a);
      RowTimes(p, m, from + p.loop, a);
      SameProduct(p, Piece(m, from), a);
      StepTimes(p, m, from, a);
      assert multiset(RowMultiplies(p, m, from))
          == multiset(Steps(p, m, from, 0)) + multiset(RowMultiplies(p, m, from + p.loop));
    } else {
      HasRow(p, a);
    }
  }

  lemma {:induction false} RowStoredOnce(p: Product, m: nat, from: nat, a: Piece)
    requires p.loop > 0 && p.precision > 0 && m < p.inM && IsPiece(p, a) && from % p.loop == 0
    ensures multiset(RowStores(p, m, from))[StoreOf(p, a)] == if a.m == m && from <= a.n then 1 else 0
    decreases p.inN - from
  {
    hide ProductOf, IsPiece, Product.Store;
    if p.HasN(from) {
      NextRow(p, from, a);
      RowStoredOnce(p, m, from + p.loop, a);
      SameProduct(p, Piece(m, from), a);
      assert multiset(RowStores(p, m, from)) == multiset{p.Store(m, from)} + multiset(RowStores(p, m, from + p.loop));
    } else {
      HasRow(p, a);
    }
  }

  lemma HasRow(p: Product, a: Piece)
    requires p.loop > 0 && IsPiece(p, a)
    ensures p.HasN(a.n) && p.HasM(a.m) && a.m < p.inM
  {
  }

  lemma NextRow(p: Product, from: nat, a: Piece)
    requires p.loop > 0 && IsPiece(p, a) && from % p.loop == 0
    ensures (from + p.loop) % p.loop == 0 && a.m < p.inM && (from < a.n ==> from + p.loop <= a.n)
  {
    NextStart(from, a.n, p.loop);
  }

  lemma StepTimes(p: Product, m: nat, n: nat, a: Piece)
    requires p.loop > 0 && p.precision > 0 && m < p.inM && a.m < p.inM
    ensures multiset(Steps(p, m, n, 0))[ProductOf(p, a)]
         == if a == Piece(m, n) then CeilDiv(p.Depth(), p.loop) else 0
  {
    hide CeilDiv, Steps;
    SameProduct(p, Piece(m, n), a);
    StepsOfPiece(p, m, n, 0, ProductOf(p, a));
    StepCount(p, m, n, 0);
    NoDepth(p);
  }

  lemma NoDepth(p: Product)
    requires p.loop > 0
    ensures p.Depth() == 0 ==> CeilDiv(p.Depth(), p.loop) == 0
  {
  }

  lemma {:induction false} TileTimes(p: Product, from: nat, a: Piece)
    requires p.loop > 0 && p.precision > 0 && IsPiece(p, a) && from % p.loop == 0
    ensures multiset(Multiplies(p, from))[ProductOf(p, a)] == if from <= a.m then CeilDiv(p.Depth(), p.loop) else 0
    ensures multiset(Stores(p, from))[StoreOf(p, a)] == if from <= a.m then 1 else 0
    decreases p.inM - from
  {
    hide Product.Multiply, Product.Store, CeilDiv, RowMultiplies, RowStores;
    if p.HasM(from) {
      NextStart(from, a.m, p.loop);
      StartsAtZero(p.loop);
      TileTimes(p, from + p.loop, a);
      RowTimes(p, from, 0, a);
      RowStoredOnce(p, from, 0, a);
      assert multiset(Multiplies(p, from))
          == multiset(RowMultiplies(p, from, 0)) + multiset(Multiplies(p, from + p.loop));
      assert multiset(Stores(p, from)) == multiset(RowStores(p, from, 0)) + multiset(Stores(p, from + p.loop));
    }
  }

  /** Every piece is multiplied once for each array's height of the tile's depth, and stored once. */
  lemma PieceTimes(p: Product, a: Piece)
    requires FromMapping(p) && p.precision > 0 && IsPiece(p, a)
    ensures multiset(Multiplies(p, 0))[ProductOf(p, a)] == CeilDiv(p.Depth(), p.loop)
    ensures multiset(Stores(p, 0))[StoreOf(p, a)] == 1
  {
    StartsAtZero(p.loop);
    TileTimes(p, 0, a);
  }
}
