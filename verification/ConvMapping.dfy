/** The convolution tile search: ONNXim/src/Mapping.cc:351-563. */
module ConvMapping {
  import opened Pow2s
  import opened MappingCommon
  import opened Numbers

  /** A tile: batches, output rows, output columns, output channels, kernel rows, kernel columns, input
      channels, in the order of the source's `args`. */
  type Tile = t: seq<nat> | |t| == 7 witness [0, 0, 0, 0, 0, 0, 0]

  const OROWS := 1
  const OCOLS := 2
  const OCHS := 3
  const KCHS := 6

  // Row counts ----------------------------------------------------------------------------------------

  function Shift(x: nat, downsample: bool): nat {
    if downsample then x / 2 else x
  }

  /** How many inputs n windows of size k touch, the padding not counted. */
  function Span(n: nat, stride: nat, k: nat): nat
    requires k > 0
  {
    n * stride + k - 1
  }

  function Dilated(k: nat, dilation: nat): (d: nat)
    requires k > 0 && dilation > 0
    ensures d >= k
  {
    MulMono(0, dilation - 1, k - 1);
    k + (dilation - 1) * (k - 1)
  }

  /** `_calc_conv_mapping`: accumulator rows, or scratchpad rows of input and weights together. */
  function CalcConvMapping(acc: bool, stride: nat, inputDilation: nat, kernelDilation: nat, downsample: bool,
                           transWeight0132: bool, transInput3120: bool,
                           batches: nat, porows: nat, pocols: nat, ochs: nat, krows: nat, kcols: nat, kchs: nat,
                           poolSize: nat, poolStride: nat, dim: nat): int
    requires dim > 0 && inputDilation > 0 && kernelDilation > 0 && poolSize > 0 && krows > 0 && kcols > 0
  {
    var orows, ocols := Span(porows, poolStride, poolSize), Span(pocols, poolStride, poolSize);
    var irows := Blocks(Span(orows, stride, Dilated(krows, kernelDilation)), inputDilation);
    var icols := Blocks(Span(ocols, stride, Dilated(kcols, kernelDilation)), inputDilation);
    var input := Shift(irows, downsample) * Shift(icols, downsample);
    var aRows := (if transInput3120 then Blocks(batches, dim) * kchs else Blocks(kchs, dim) * batches) * input;
    var bRows := (if transWeight0132 then Blocks(kchs, dim) * ochs else Blocks(ochs, dim) * kchs) * (kcols * krows);
    var cRows := Blocks(ochs, dim) * batches * (orows * ocols);
    if acc then cRows else aRows + bRows
  }

  /** The layer and the core's buffers, sizes in bytes. */
  datatype Layer = Layer(stride: nat, padding: nat, downsample: bool, dim: nat,
                         spadBytes: nat, accumBytes: nat, precision: nat)
  {
    predicate Valid() { dim > 0 && precision > 0 }

    function MaxSpadRows(): nat
      requires Valid()
    {
      NatDiv(spadBytes, Double(dim, precision))
    }

    function MaxAccRows(): nat
      requires Valid()
    {
      NatDiv(accumBytes, Double(dim, 4))
    }

    function Rows(acc: bool, t: Tile): int
      requires Valid() && t[4] > 0 && t[5] > 0
    {
      CalcConvMapping(acc, stride, 1, 1, downsample, false, false, t[0], t[1], t[2], t[3], t[4], t[5], t[6], 1, 1, dim)
    }
  }

  /** Input extent of o outputs under a kernel of k. */
  function Extent(layer: Layer, o: nat, k: nat): nat
    requires k > 0
  {
    Shift(Span(o, layer.stride, k), layer.downsample)
  }

  /** Along one dimension o windows of size k, a stride apart, touch (o - 1) * stride + k inputs, and up to the next
      window's start are counted; a downsampled layer keeps only those it reads, one for each output. */
  lemma ExtentIs(layer: Layer, o: nat, k: nat)
    requires k > 0 && o > 0
    ensures !layer.downsample ==> Extent(layer, o, k) == (o - 1) * layer.stride + k + layer.stride - 1
    ensures layer.downsample && layer.stride == 2 && k == 1 ==> Extent(layer, o, k) == o
  {
    assert o * layer.stride == (o - 1) * layer.stride + layer.stride;
  }

  function InputRows(layer: Layer, t: Tile): int
    requires layer.Valid() && t[4] > 0 && t[5] > 0
  {
    Blocks(t[6], layer.dim) * t[0] * (Extent(layer, t[1], t[4]) * Extent(layer, t[2], t[5]))
  }

  function WeightRows(layer: Layer, t: Tile): int
    requires layer.Valid()
  {
    Blocks(t[3], layer.dim) * t[6] * (t[5] * t[4])
  }

  function OutputRows(layer: Layer, t: Tile): int
    requires layer.Valid()
  {
    Blocks(t[3], layer.dim) * t[0] * (t[1] * t[2])
  }

  lemma RowCounts(layer: Layer, t: Tile)
    requires layer.Valid() && t[4] > 0 && t[5] > 0
    ensures layer.Rows(false, t) == InputRows(layer, t) + WeightRows(layer, t)
    ensures layer.Rows(true, t) == OutputRows(layer, t)
  {
    hide Blocks, Shift;
    CeilingByOne(Span(t[1], layer.stride, t[4]));
    CeilingByOne(Span(t[2], layer.stride, t[5]));
    assert Span(t[1], 1, 1) == t[1] && Span(t[2], 1, 1) == t[2];
    assert Dilated(t[4], 1) == t[4] && Dilated(t[5], 1) == t[5];
    hide Span, Dilated;
  }

  lemma CeilingByOne(x: nat)
    ensures Blocks(x, 1) == x
  {
  }

  // Monotonicity --------------------------------------------------------------------------------------

  ghost predicate Within(t: Tile, u: Tile) {
    forall i :: 0 <= i < 7 ==> t[i] <= u[i]
  }

  ghost predicate AllPositive(t: Tile) {
    forall i :: 0 <= i < 7 ==> t[i] >= 1
  }

  /** Every dimension but perhaps the batch is positive. */
  ghost predicate Shaped(t: Tile) {
    forall i :: 1 <= i < 7 ==> t[i] >= 1
  }

  /** The tile keeps every dimension positive and inside the layer. */
  ghost predicate InBox(t: Tile, max: Tile) {
    AllPositive(t) && Within(t, max)
  }

  /** The same, but it may be without a batch. */
  ghost predicate Inside(t: Tile, max: Tile) {
    Shaped(t) && Within(t, max)
  }

  predicate Fits(layer: Layer, t: Tile)
    requires layer.Valid() && t[4] > 0 && t[5] > 0
  {
    layer.Rows(false, t) <= layer.MaxSpadRows() && layer.Rows(true, t) <= layer.MaxAccRows()
  }

  const ONES: Tile := [1, 1, 1, 1, 1, 1, 1]

  ghost predicate OnesFit(layer: Layer)
    requires layer.Valid()
  {
    Fits(layer, ONES)
  }

  lemma CeilingMono(x: nat, y: nat, dim: nat)
    requires dim > 0 && x <= y
    ensures Blocks(x, dim) <= Blocks(y, dim)
  {
    BlocksIsCeilDiv(x, dim);
    BlocksIsCeilDiv(y, dim);
    CeilDivCovers(y, dim);
    CeilDivAtMost(x, dim, CeilDiv(y, dim));
  }

  lemma ExtentMono(layer: Layer, o: nat, k: nat, o': nat, k': nat)
    requires 0 < k <= k' && o <= o'
    ensures Extent(layer, o, k) <= Extent(layer, o', k')
  {
    MulMono(o, o', layer.stride);
  }

  lemma ProductMono(a: nat, b: nat, c: nat, a': nat, b': nat, c': nat)
    requires a <= a' && b <= b' && c <= c'
    ensures a * b * c <= a' * b' * c'
  {
    MulMono(a, a', b);
    MulMono(b, b', a');
    MulMono(a * b, a' * b', c);
    MulMono(c, c', a' * b');
  }

  lemma PairMono(a: nat, b: nat, a': nat, b': nat)
    requires a <= a' && b <= b'
    ensures a * b <= a' * b'
  {
    MulMono(a, a', b);
    MulMono(b, b', a');
  }

  /** A larger tile never needs fewer rows. */
  lemma RowsMono(layer: Layer, t: Tile, u: Tile)
    requires layer.Valid() && t[4] > 0 && t[5] > 0 && Within(t, u)
    ensures u[4] > 0 && u[5] > 0
    ensures layer.Rows(false, t) <= layer.Rows(false, u) && layer.Rows(true, t) <= layer.Rows(true, u)
  {
    assert t[0] <= u[0] && t[1] <= u[1] && t[2] <= u[2] && t[3] <= u[3] && t[4] <= u[4] && t[5] <= u[5] && t[6] <= u[6];
    hide Blocks, Extent, Layer.Rows, CalcConvMapping;
    RowCounts(layer, t);
    RowCounts(layer, u);
    CeilingMono(t[3], u[3], layer.dim);
    CeilingMono(t[6], u[6], layer.dim);
    ExtentMono(layer, t[1], t[4], u[1], u[4]);
    ExtentMono(layer, t[2], t[5], u[2], u[5]);
    PairMono(Extent(layer, t[1], t[4]), Extent(layer, t[2], t[5]), Extent(layer, u[1], u[4]),
             Extent(layer, u[2], u[5]));
    PairMono(t[5], t[4], u[5], u[4]);
    PairMono(t[1], t[2], u[1], u[2]);
    ThreeProducts(layer, t, u);
  }

  lemma ThreeProducts(layer: Layer, t: Tile, u: Tile)
    requires layer.Valid() && t[4] > 0 && t[5] > 0 && u[4] > 0 && u[5] > 0
    requires Blocks(t[3], layer.dim) <= Blocks(u[3], layer.dim) && Blocks(t[6], layer.dim) <= Blocks(u[6], layer.dim)
    requires t[0] <= u[0] && t[6] <= u[6] && t[5] * t[4] <= u[5] * u[4] && t[1] * t[2] <= u[1] * u[2]
    requires Extent(layer, t[1], t[4]) * Extent(layer, t[2], t[5]) <= Extent(layer, u[1], u[4]) * Extent(layer, u[2],
                                                                                                         u[5])
    ensures InputRows(layer, t) <= InputRows(layer, u)
    ensures WeightRows(layer, t) <= WeightRows(layer, u)
    ensures OutputRows(layer, t) <= OutputRows(layer, u)
  {
    hide Blocks, Extent;
    ProductMono(Blocks(t[6], layer.dim), t[0], Extent(layer, t[1], t[4]) * Extent(layer, t[2], t[5]),
                Blocks(u[6], layer.dim), u[0], Extent(layer, u[1], u[4]) * Extent(layer, u[2], u[5]));
    ProductMono(Blocks(t[3], layer.dim), t[6], t[5] * t[4], Blocks(u[3], layer.dim), u[6], u[5] * u[4]);
    ProductMono(Blocks(t[3], layer.dim), t[0], t[1] * t[2], Blocks(u[3], layer.dim), u[0], u[1] * u[2]);
  }

  /** A tile that fits exists exactly when the all-ones tile fits: the search can succeed or none can. */
  lemma FittingTileExists(layer: Layer, max: Tile)
    requires layer.Valid() && InBox(ONES, max)
    ensures (exists t: Tile :: InBox(t, max) && t[4] > 0 && t[5] > 0 && Fits(layer, t)) <==> Fits(layer, ONES)
  {
    hide Layer.Rows;
    forall t: Tile | InBox(t, max) && t[4] > 0 && t[5] > 0 && Fits(layer, t)
      ensures Fits(layer, ONES)
    {
      assert Within(ONES, t);
      RowsMono(layer, ONES, t);
    }
    if Fits(layer, ONES) {
      assert InBox(ONES, max) && ONES[4] > 0 && ONES[5] > 0;
    }
  }

  // Shrinking -----------------------------------------------------------------------------------------

  /** Output columns are left alone while they fill at most one array width and there are rows to give up. */
  predicate Spared(t: Tile, i: nat, dim: nat) {
    i == OCOLS && t[OCOLS] <= dim && t[OROWS] > 1
  }

  /** i is the dimension the shrink loop picks: the first of the largest that are not spared. */
  predicate IsLargest(t: Tile, dim: nat, i: int) {
    && 0 <= i < 7 && !Spared(t, i, dim)
    && forall j :: 0 <= j < 7 && !Spared(t, j, dim) ==> t[j] <= t[i] && (j < i ==> t[j] < t[i])
  }

  /** The scan of the shrink loop. */
  method SelectLargest(args: array<nat>, dim: nat) returns (maxIdx: int)
    requires args.Length == 7
    ensures IsLargest(args[..], dim, maxIdx)
  {
    var maxVal: int := -1;
    maxIdx := -1;
    for i := 0 to 7
      invariant maxIdx < i && (maxIdx < 0 <==> maxVal < 0)
      invariant maxIdx >= 0 ==> maxVal == args[maxIdx] && !Spared(args[..], maxIdx, dim)
      invariant maxIdx < 0 ==> forall j :: 0 <= j < i ==> Spared(args[..], j, dim)
      invariant forall j :: 0 <= j < i && !Spared(args[..], j, dim) ==>
                  args[j] <= maxVal && (j < maxIdx ==> args[j] < maxVal)
    {
      if !(i == OCOLS && args[i] <= dim && args[OROWS] > 1) && args[i] > maxVal {
        maxVal, maxIdx := args[i], i;
      }
    }
    assert !Spared(args[..], 0, dim);
  }

  /** Channels go down to the next multiple of the array size, never below one; the rest go down by one. */
  function Reduced(i: nat, v: nat, dim: nat): int
    requires dim > 0
  {
    if i == OCHS || i == KCHS then
      var w := if v % dim != 0 then v - v % dim else v - dim;
      if w == 0 then 1 else w
    else v - 1
  }

  lemma ReducedIsSmaller(i: nat, v: nat, dim: nat)
    requires dim > 0 && v > 1
    ensures 1 <= Reduced(i, v, dim) < v
  {
    SmallRemainder(v, dim);
  }

  lemma SmallRemainder(v: nat, dim: nat)
    requires dim > 0
    ensures v < dim ==> v % dim == v
    ensures v % dim <= v
  {
  }

  /** A channel dimension goes down to w: the greatest multiple of the array size strictly below v, or one if there is
      no positive one. */
  ghost predicate NextMultiple(v: nat, w: int, dim: nat) {
    if v > dim then 0 < w < v <= w + dim && exists q: nat :: w == Multiple(q, dim)
    else w == 1
  }

  function Multiple(q: nat, dim: nat): nat { q * dim }

  lemma ReducedTo(i: nat, v: nat, dim: nat)
    requires dim > 0 && v > 0
    ensures if i == OCHS || i == KCHS then NextMultiple(v, Reduced(i, v, dim), dim) else Reduced(i, v, dim) == v - 1
  {
    SmallRemainder(v, dim);
    var q := NatDiv(v, dim);
    Divided(v, dim);
    if v % dim != 0 {
      assert v - v % dim == Multiple(q, dim);
    } else if v > dim {
      assert v - dim == Multiple(q - 1, dim);
    }
  }

  lemma Divided(v: nat, dim: nat)
    requires dim > 0
    ensures v == NatDiv(v, dim) * dim + v % dim && v % dim < dim
    ensures v % dim == 0 && v > 0 ==> v >= dim && NatDiv(v, dim) >= 1 && v - dim == (NatDiv(v, dim) - 1) * dim
    ensures v > dim && v % dim != 0 ==> NatDiv(v, dim) * dim > 0
  {
  }

  function Total(t: Tile): nat {
    t[0] + t[1] + t[2] + t[3] + t[4] + t[5] + t[6]
  }

  /** Whatever is picked from a tile other than all ones is above one. */
  lemma LargestAboveOne(t: Tile, dim: nat, i: int)
    requires IsLargest(t, dim, i) && AllPositive(t) && t != ONES
    ensures t[i] > 1
  {
    if t[i] <= 1 {
      OnlyOnes(t, dim, i);
    }
  }

  lemma OnlyOnes(t: Tile, dim: nat, i: int)
    requires IsLargest(t, dim, i) && AllPositive(t) && t[i] <= 1
    ensures t == ONES
  {
    assert t[OROWS] <= t[i];
    forall j | 0 <= j < 7
      ensures t[j] == 1
    {
      assert !Spared(t, j, dim);
    }
  }

  lemma SomeLargest(t: Tile, dim: nat)
    ensures exists i :: IsLargest(t, dim, i)
  {
    var best := FirstLargest(t, dim, 7);
    assert IsLargest(t, dim, best);
  }

  lemma FirstLargest(t: Tile, dim: nat, n: nat) returns (i: int)
    requires 1 <= n <= 7
    ensures 0 <= i < n && !Spared(t, i, dim)
    ensures forall j :: 0 <= j < n && !Spared(t, j, dim) ==> t[j] <= t[i] && (j < i ==> t[j] < t[i])
  {
    if n == 1 {
      i := 0;
    } else {
      i := FirstLargest(t, dim, n - 1);
      if !Spared(t, n - 1, dim) && t[n - 1] > t[i] {
        i := n - 1;
      }
    }
  }

  lemma LargestUnique(t: Tile, dim: nat, i: int, j: int)
    requires IsLargest(t, dim, i) && IsLargest(t, dim, j)
    ensures i == j
  {
  }

  ghost function Largest(t: Tile, dim: nat): (i: nat)
    ensures IsLargest(t, dim, i)
  {
    SomeLargest(t, dim);
    var i :| IsLargest(t, dim, i);
    i
  }

  /** One turn of the shrink loop. */
  ghost function Smaller(t: Tile, dim: nat): (u: Tile)
    requires dim > 0 && AllPositive(t) && t != ONES
    ensures Total(u) < Total(t) && Within(u, t)
    ensures AllPositive(u)
  {
    var i := Largest(t, dim);
    LargestAboveOne(t, dim, i);
    ReducedIsSmaller(i, t[i], dim);
    t[i := Reduced(i, t[i], dim)]
  }

  const NO_BATCH: Tile := [0, 1, 1, 1, 1, 1, 1]

  /** A tile the shrink loop can come by: what it makes of the all-ones tile has no batch. */
  ghost predicate Comes(t: Tile) {
    AllPositive(t) || t == NO_BATCH
  }

  /** The tile the shrink loop arrives at. */
  ghost function Shrunk(layer: Layer, t: Tile): Tile
    requires layer.Valid() && Comes(t)
    decreases Total(t)
  {
    if t == NO_BATCH || Fits(layer, t) then t
    else if t == ONES then NO_BATCH
    else Shrunk(layer, Smaller(t, layer.dim))
  }

  /** One turn: the first of the largest dimensions that are not spared goes down, a channel dimension to the next
      multiple of the array size and any other by one; the rest stay as they are. */
  lemma TurnIs(t: Tile, dim: nat, i: int)
    requires dim > 0 && AllPositive(t) && t != ONES && IsLargest(t, dim, i)
    ensures var u := Smaller(t, dim);
            && u == t[i := u[i]]
            && if i == OCHS || i == KCHS then NextMultiple(t[i], u[i], dim) else u[i] + 1 == t[i]
  {
    hide Reduced;
    LargestUnique(t, dim, i, Largest(t, dim));
    LargestAboveOne(t, dim, Largest(t, dim));
    ReducedIsSmaller(Largest(t, dim), t[Largest(t, dim)], dim);
    ReducedTo(Largest(t, dim), t[Largest(t, dim)], dim);
  }

  /** A channel dimension of a layer as the shrink loop leaves it: its own, whole arrays, or one. */
  ghost predicate CutChannels(v: nat, own: nat, dim: nat) {
    v == own || v == 1 || exists q: nat :: v == Multiple(q, dim)
  }

  /** The tile was cut down from the layer: channels in whole arrays, and the columns below the array's width only
      after the rows were down to one. */
  ghost predicate CutFrom(t: Tile, max: Tile, dim: nat) {
    && CutChannels(t[OCHS], max[OCHS], dim) && CutChannels(t[KCHS], max[KCHS], dim)
    && (t[OCOLS] == max[OCOLS] || t[OCOLS] >= dim || t[OROWS] <= 1)
  }

  lemma TurnCuts(t: Tile, max: Tile, dim: nat)
    requires dim > 0 && AllPositive(t) && t != ONES && CutFrom(t, max, dim)
    ensures CutFrom(Smaller(t, dim), max, dim)
  {
    var i := Largest(t, dim);
    TurnIs(t, dim, i);
    assert !Spared(t, i, dim);
    hide Smaller, IsLargest, Multiple;
  }

  lemma {:induction false} ShrunkIsCut(layer: Layer, t: Tile, max: Tile)
    requires layer.Valid() && AllPositive(t) && CutFrom(t, max, layer.dim)
    ensures CutFrom(Shrunk(layer, t), max, layer.dim)
    decreases Total(t)
  {
    hide Fits, Total, Smaller, CutFrom;
    if t == ONES || Fits(layer, t) {
      OnesIsCut(max, layer.dim);
    } else {
      TurnCuts(t, max, layer.dim);
      ShrunkIsCut(layer, Smaller(t, layer.dim), max);
    }
  }

  /** Tiles that follow one another, each from the one before by one turn of the loop, none of them fitting but
      perhaps the last. */
  ghost predicate Turned(layer: Layer, ts: seq<Tile>)
    requires layer.Valid()
  {
    forall n :: 0 <= n < |ts| - 1 ==>
      && AllPositive(ts[n]) && ts[n] != ONES && !Fits(layer, ts[n])
      && IsTurn(ts[n], ts[n + 1], layer.dim)
  }

  ghost predicate IsTurn(t: Tile, u: Tile, dim: nat) {
    exists i: nat ::
      && IsLargest(t, dim, i) && u == t[i := u[i]]
      && if i == OCHS || i == KCHS then NextMultiple(t[i], u[i], dim) else u[i] + 1 == t[i]
  }

  /** If some tile fits, the loop stops at the first one that does. */
  lemma {:induction false} ShrunkIsFirst(layer: Layer, t: Tile) returns (ts: seq<Tile>)
    requires layer.Valid() && AllPositive(t) && OnesFit(layer)
    ensures Turned(layer, ts) && |ts| > 0 && ts[0] == t && ts[|ts| - 1] == Shrunk(layer, t)
    decreases Total(t)
  {
    hide Fits, Total, Smaller, IsTurn;
    if t == ONES || Fits(layer, t) {
      ts := [t];
    } else {
      var u := Smaller(t, layer.dim);
      IsOneTurn(t, layer.dim);
      var us := ShrunkIsFirst(layer, u);
      ts := [t] + us;
    }
  }

  lemma IsOneTurn(t: Tile, dim: nat)
    requires dim > 0 && AllPositive(t) && t != ONES
    ensures IsTurn(t, Smaller(t, dim), dim)
  {
    TurnIs(t, dim, Largest(t, dim));
    hide Smaller, NextMultiple;
  }

  lemma OnesIsCut(max: Tile, dim: nat)
    ensures CutFrom(NO_BATCH, max, dim)
  {
  }

  /** If the all-ones tile fits, that tile is positive and fits; if not, it is the one without a batch. */
  lemma {:induction false} ShrunkFits(layer: Layer, t: Tile)
    requires layer.Valid() && AllPositive(t)
    ensures var u := Shrunk(layer, t);
            && Inside(u, t) && u[4] > 0 && u[5] > 0
            && (if Fits(layer, ONES) then AllPositive(u) && Fits(layer, u) else u == NO_BATCH)
    decreases Total(t)
  {
    hide Fits, Total, Smaller;
    if t == ONES || Fits(layer, t) {
      if !Fits(layer, ONES) {
        NoneFits(layer, t);
      }
    } else {
      ShrunkFits(layer, Smaller(t, layer.dim));
    }
  }

  lemma NoneFits(layer: Layer, t: Tile)
    requires layer.Valid() && AllPositive(t) && !Fits(layer, ONES)
    ensures t[4] > 0 && t[5] > 0 && !Fits(layer, t)
  {
    hide Layer.Rows, Layer.MaxSpadRows, Layer.MaxAccRows;
    if Fits(layer, t) {
      RowsMono(layer, ONES, t);
    }
  }

  /** The loop ends: every dimension is positive, and the all-ones tile fits or the scratchpad has a row at all. */
  ghost predicate CanShrink(layer: Layer, t: Tile) {
    layer.Valid() && AllPositive(t) && (OnesFit(layer) || layer.MaxSpadRows() >= 1)
  }

  ghost predicate IsShrunk(layer: Layer, t: Tile, u: Tile) {
    layer.Valid() && AllPositive(t) && u == Shrunk(layer, t)
  }

  lemma NoBatchFits(layer: Layer, t: Tile)
    requires CanShrink(layer, t)
    ensures Fits(layer, NO_BATCH)
  {
    hide Layer.Rows, Layer.MaxSpadRows, Layer.MaxAccRows;
    OneRow(layer, NO_BATCH);
    if OnesFit(layer) {
      assert Within(NO_BATCH, ONES);
      RowsMono(layer, NO_BATCH, ONES);
    }
  }

  /** What the loop makes of the all-ones tile. */
  lemma OnesLoseBatch(dim: nat)
    requires dim > 0
    ensures IsLargest(ONES, dim, 0) && NO_BATCH == ONES[0 := Reduced(0, 1, dim)]
  {
  }

  method Shrink(layer: Layer, args: array<nat>)
    requires args.Length == 7
    requires CanShrink(layer, args[..])
    modifies args
    ensures IsShrunk(layer, old(args[..]), args[..])
  {
    hide Fits, Layer.Rows, Layer.MaxSpadRows, Layer.MaxAccRows, Total, Reduced, IsLargest, CanShrink;
    CanShrinkMeans(layer, args[..]);
    NoBatchFits(layer, args[..]);
    var spadRows, accRows := layer.Rows(false, args[..]), layer.Rows(true, args[..]);
    while spadRows > layer.MaxSpadRows() || accRows > layer.MaxAccRows()
      invariant Comes(args[..])
      invariant spadRows == layer.Rows(false, args[..]) && accRows == layer.Rows(true, args[..])
      invariant Shrunk(layer, old(args[..])) == Shrunk(layer, args[..])
      decreases Total(args[..])
    {
      ghost var t := args[..];
      FitsMeans(layer, t);
      var maxIdx := SelectLargest(args, layer.dim);
      StepDown(layer, t, maxIdx);
      args[maxIdx] := Reduced(maxIdx, args[maxIdx], layer.dim);
      assert args[..] == t[maxIdx := Reduced(maxIdx, t[maxIdx], layer.dim)];
      spadRows, accRows := layer.Rows(false, args[..]), layer.Rows(true, args[..]);
    }
    FitsMeans(layer, args[..]);
  }

  /** One turn of the loop. */
  lemma StepDown(layer: Layer, t: Tile, i: int)
    requires layer.Valid() && AllPositive(t) && !Fits(layer, t) && 0 <= i < 7 && IsLargest(t, layer.dim, i)
    ensures Reduced(i, t[i], layer.dim) >= 0
    ensures var u: Tile := t[i := Reduced(i, t[i], layer.dim)];
            Comes(u) && Shrunk(layer, t) == Shrunk(layer, u) && Total(u) < Total(t)
  {
    hide Fits, Reduced, IsLargest;
    if t == ONES {
      OnesLoseBatch(layer.dim);
      LargestUnique(t, layer.dim, i, 0);
    } else {
      LargestUnique(t, layer.dim, i, Largest(t, layer.dim));
      LargestAboveOne(t, layer.dim, Largest(t, layer.dim));
      ReducedIsSmaller(Largest(t, layer.dim), t[Largest(t, layer.dim)], layer.dim);
      assert Smaller(t, layer.dim) == t[i := Reduced(i, t[i], layer.dim)];
    }
  }

  lemma FitsMeans(layer: Layer, t: Tile)
    requires layer.Valid() && t[4] > 0 && t[5] > 0
    ensures Fits(layer, t) <==> layer.Rows(false, t) <= layer.MaxSpadRows() && layer.Rows(true, t) <= layer.MaxAccRows()
  {
    hide Layer.Rows, Layer.MaxSpadRows, Layer.MaxAccRows;
  }

  // When nothing fits ---------------------------------------------------------------------------------

  const NO_ROW: Tile := [0, 0, 1, 1, 1, 1, 1]
  const STUCK: Tile := [0, 0, 0, 1, 1, 1, 1]

  /** What the shrink loop makes of a tile, whatever its dimensions. */
  ghost predicate Turns(layer: Layer, t: Tile, u: Tile)
    requires layer.Valid()
  {
    exists i: nat :: IsLargest(t, layer.dim, i) && Reduced(i, t[i], layer.dim) >= 0
                     && u == t[i := Reduced(i, t[i], layer.dim)]
  }

  lemma OneChannel(dim: nat)
    requires dim > 0
    ensures Reduced(OCHS, 1, dim) == 1
  {
    SmallRemainder(1, dim);
  }

  lemma OneRow(layer: Layer, t: Tile)
    requires layer.Valid() && t[0] == 0 && t[3] == t[4] == t[5] == t[6] == 1
    ensures Fits(layer, t) <==> layer.MaxSpadRows() >= 1
  {
    hide Layer.Rows, Layer.MaxSpadRows, Layer.MaxAccRows, Extent, Blocks;
    RowCounts(layer, t);
    OneBlock(layer.dim);
    NoRows(Blocks(1, layer.dim), Extent(layer, t[1], 1) * Extent(layer, t[2], 1));
    NoRows(Blocks(1, layer.dim), t[1] * t[2]);
  }

  lemma NoRows(blocks: nat, area: nat)
    ensures blocks * 0 * area == 0
  {
  }

  lemma OneBlock(dim: nat)
    requires dim > 0
    ensures Blocks(1, dim) == 1
  {
    SmallRemainder(1, dim);
    if dim == 1 {
      assert NatDiv(1, dim) == 1;
    }
  }

  /** If the all-ones tile does not fit, no tile with all dimensions positive does, and whatever it starts from the
      shrink loop comes to a tile without a batch. That one fits exactly if the scratchpad has a row at all. Without
      a row the loop goes on to a tile that it turns into itself, and never ends. */
  lemma NothingFits(layer: Layer, t: Tile)
    requires layer.Valid() && !Fits(layer, ONES) && AllPositive(t)
    ensures t[4] > 0 && t[5] > 0 && !Fits(layer, t) && Shrunk(layer, t) == NO_BATCH
    ensures Fits(layer, NO_BATCH) <==> layer.MaxSpadRows() >= 1
    ensures layer.MaxSpadRows() == 0 ==>
              && Turns(layer, NO_BATCH, NO_ROW) && !Fits(layer, NO_ROW)
              && Turns(layer, NO_ROW, STUCK) && !Fits(layer, STUCK) && Turns(layer, STUCK, STUCK)
  {
    hide Layer.Rows, Layer.MaxSpadRows, Layer.MaxAccRows;
    NoneFits(layer, t);
    ShrunkFits(layer, t);
    OneRow(layer, NO_BATCH);
    OneRow(layer, NO_ROW);
    OneRow(layer, STUCK);
    hide Fits, Shrunk;
    OneChannel(layer.dim);
    assert IsLargest(NO_BATCH, layer.dim, 1) && NO_ROW == NO_BATCH[1 := Reduced(1, 1, layer.dim)];
    assert IsLargest(NO_ROW, layer.dim, 2) && STUCK == NO_ROW[2 := Reduced(2, 1, layer.dim)];
    assert IsLargest(STUCK, layer.dim, 3) && STUCK == STUCK[3 := Reduced(3, 1, layer.dim)];
  }

  // Growing -------------------------------------------------------------------------------------------

  /** Whether one dimension may still grow by one. */
  predicate CanGrow(layer: Layer, t: Tile, max: Tile, i: nat)
    requires layer.Valid() && i < 7 && t[4] > 0 && t[5] > 0
  {
    t[i] < max[i] && Fits(layer, t[i := t[i] + 1])
  }

  /** `((input_tile_size + weight_tile_size) * 3 >> 1) <= spad_size / 2`, with the padded input. */
  predicate SizeOk(layer: Layer, t: Tile) {
    var weight := t[0] * t[3] * t[4] * t[5] * t[6] * layer.precision;
    var input := t[0] * (t[1] + 2 * layer.padding) * (t[2] + 2 * layer.padding) * t[6] * layer.precision;
    (input + weight) * 3 / 2 <= layer.spadBytes / 2
  }

  /** The size check asks for one and a half times the inputs, padding on both sides counted, and the weights, of every
      batch and input channel, in half the scratchpad. */
  lemma SizeOkMeans(layer: Layer, t: Tile)
    ensures var places := (t[1] + layer.padding + layer.padding) * (t[2] + layer.padding + layer.padding);
            var weights := t[3] * (t[4] * t[5]);
            SizeOk(layer, t) <==> (t[0] * t[6] * layer.precision * (places + weights)) * 3 / 2 <= layer.spadBytes / 2
  {
    var a, b := t[1] + layer.padding + layer.padding, t[2] + layer.padding + layer.padding;
    assert a == t[1] + 2 * layer.padding && b == t[2] + 2 * layer.padding;
    Sizes(t[0], t[6], layer.precision, a, b, t[3], t[4], t[5]);
  }

  lemma Sizes(n: int, c: int, p: int, a: int, b: int, m: int, r: int, s: int)
    ensures n * c * p * (a * b + m * (r * s)) == n * a * b * c * p + n * m * r * s * c * p
  {
    Distributes(n * c * p, a * b, m * (r * s));
    FourFactors(n, c, p, a * b);
    FourFactors(n, c, p, m * (r * s));
    Regroups(n, a, b);
    Regroups(n, m, r * s);
    Regroups(n * m, r, s);
  }

  lemma Distributes(x: int, a: int, b: int)
    ensures x * (a + b) == x * a + x * b
  {
  }

  lemma FourFactors(n: int, c: int, p: int, x: int)
    ensures n * c * p * x == n * x * c * p
  {
    assert n * c * p * x == n * (c * p * x) == n * (x * c * p);
  }

  lemma Regroups(a: int, b: int, c: int)
    ensures a * (b * c) == a * b * c
  {
  }

  /** The tile with as many output columns as the loop over them gives it. */
  function Widened(layer: Layer, max: Tile, t: Tile): (u: Tile)
    requires layer.Valid() && t[4] > 0 && t[5] > 0
    ensures u[4] == t[4] && u[5] == t[5]
    decreases max[OCOLS] as int - t[OCOLS]
  {
    if CanGrow(layer, t, max, OCOLS) then Widened(layer, max, t[OCOLS := t[OCOLS] + 1]) else t
  }

  /** The rest of a pass, from dimension i on. */
  function Passed(layer: Layer, max: Tile, t: Tile, i: nat): (u: Tile)
    requires layer.Valid() && i <= 7 && t[4] > 0 && t[5] > 0
    ensures u[4] > 0 && u[5] > 0
    decreases 7 - i
  {
    if i == 7 then t
    else Passed(layer, max, if CanGrow(layer, t, max, i) && SizeOk(layer, t) then t[i := t[i] + 1] else t, i + 1)
  }

  lemma PassedNext(layer: Layer, max: Tile, t: Tile, i: nat)
    requires layer.Valid() && i <= 7 && t[4] > 0 && t[5] > 0
    ensures if i == 7 then Passed(layer, max, t, i) == t
            else if CanGrow(layer, t, max, i) && SizeOk(layer, t) then
              t[i := t[i] + 1][4] > 0 && t[i := t[i] + 1][5] > 0
              && Passed(layer, max, t, i) == Passed(layer, max, t[i := t[i] + 1], i + 1)
            else Passed(layer, max, t, i) == Passed(layer, max, t, i + 1)
  {
    hide Fits, SizeOk;
  }

  lemma {:induction false} PassedGrows(layer: Layer, max: Tile, t: Tile, i: nat)
    requires layer.Valid() && i <= 7 && Inside(t, max) && t[4] > 0 && t[5] > 0
    ensures var u := Passed(layer, max, t, i); Within(t, u) && Inside(u, max) && (u == t || Total(u) > Total(t))
    decreases 7 - i
  {
    hide Fits, SizeOk, Total, Inside, Within;
    WithinSelf(t);
    if i < 7 {
      if CanGrow(layer, t, max, i) && SizeOk(layer, t) {
        OneMore(t, t, max, i);
        var u := t[i := t[i] + 1];
        PassedGrows(layer, max, u, i + 1);
        WithinTwice(t, u, Passed(layer, max, u, i + 1));
      } else {
        PassedGrows(layer, max, t, i + 1);
      }
    }
  }

  lemma WithinTwice(t: Tile, u: Tile, v: Tile)
    requires Within(t, u) && Within(u, v)
    ensures Within(t, v)
  {
  }

  /** Passes until one changes nothing. */
  ghost function Grown(layer: Layer, max: Tile, t: Tile): (u: Tile)
    requires layer.Valid() && Inside(t, max) && t[4] > 0 && t[5] > 0
    decreases Total(max) - Total(t)
  {
    PassedGrows(layer, max, t, 0);
    TotalWithin(Passed(layer, max, t, 0), max);
    if Passed(layer, max, t, 0) == t then t else Grown(layer, max, Passed(layer, max, t, 0))
  }

  method GrowColumns(layer: Layer, args: array<nat>, max: Tile)
    requires layer.Valid() && args.Length == 7
    requires Inside(args[..], max) && args[4] > 0 && args[5] > 0 && Fits(layer, args[..])
    modifies args
    ensures Inside(args[..], max) && args[4] > 0 && args[5] > 0 && Fits(layer, args[..])
    ensures args[..] == old(args[..])[OCOLS := args[OCOLS]] && args[OCOLS] >= old(args[OCOLS])
    ensures args[..] == Widened(layer, max, old(args[..]))
    ensures !CanGrow(layer, args[..], max, OCOLS)
  {
    hide Fits;
    var notIncreased := false;
    while !notIncreased
      invariant Inside(args[..], max) && args[4] > 0 && args[5] > 0 && Fits(layer, args[..])
      invariant args[..] == old(args[..])[OCOLS := args[OCOLS]] && args[OCOLS] >= old(args[OCOLS])
      invariant Widened(layer, max, args[..]) == Widened(layer, max, old(args[..]))
      invariant notIncreased ==> !CanGrow(layer, args[..], max, OCOLS)
      decreases max[OCOLS] - args[OCOLS], !notIncreased
    {
      notIncreased := true;
      var candidate := args[..][OCOLS := args[OCOLS] + 1];
      if candidate[OCOLS] <= max[OCOLS] && Fits(layer, candidate) {
        args[OCOLS] := candidate[OCOLS];
        assert args[..] == candidate;
        notIncreased := false;
      }
    }
  }

  ghost predicate Settled(layer: Layer, t: Tile, max: Tile)
    requires layer.Valid() && t[4] > 0 && t[5] > 0
  {
    forall i: nat :: i < 7 ==> !(CanGrow(layer, t, max, i) && SizeOk(layer, t))
  }

  /** One pass of the last loop over all dimensions. */
  method GrowPass(layer: Layer, args: array<nat>, max: Tile) returns (nothingIncreased: bool)
    requires layer.Valid() && args.Length == 7
    requires Inside(args[..], max) && args[4] > 0 && args[5] > 0 && Fits(layer, args[..])
    modifies args
    ensures Inside(args[..], max) && args[4] > 0 && args[5] > 0 && Fits(layer, args[..])
    ensures Within(old(args[..]), args[..])
    ensures args[..] == Passed(layer, max, old(args[..]), 0) && (nothingIncreased <==> args[..] == old(args[..]))
    ensures if nothingIncreased then Settled(layer, args[..], max) else Total(args[..]) > Total(old(args[..]))
  {
    hide Fits, SizeOk, Total, Inside, Within, Passed;
    WithinSelf(args[..]);
    nothingIncreased := true;
    for i := 0 to 7
      invariant Inside(args[..], max) && args[4] > 0 && args[5] > 0 && Fits(layer, args[..])
      invariant Within(old(args[..]), args[..])
      invariant Passed(layer, max, args[..], i) == Passed(layer, max, old(args[..]), 0)
      invariant if nothingIncreased then args[..] == old(args[..]) else Total(args[..]) > Total(old(args[..]))
      invariant nothingIncreased ==>
                  forall j: nat :: j < i ==> !(CanGrow(layer, args[..], max, j) && SizeOk(layer, args[..]))
    {
      var candidate := args[..][i := args[i] + 1];
      PassedNext(layer, max, args[..], i);
      if candidate[i] <= max[i] && Fits(layer, candidate) && SizeOk(layer, args[..]) {
        ghost var before := args[..];
        args[i] := candidate[i];
        assert args[..] == candidate;
        OneMore(old(args[..]), before, max, i);
        nothingIncreased := false;
      }
    }
    PassedNext(layer, max, args[..], 7);
  }

  lemma WithinSelf(t: Tile)
    ensures Within(t, t)
  {
  }

  lemma OneMore(from: Tile, t: Tile, max: Tile, i: nat)
    requires i < 7 && Within(from, t) && Inside(t, max) && t[i] < max[i]
    ensures var u: Tile := t[i := t[i] + 1];
            Within(from, u) && Inside(u, max) && Total(u) == Total(t) + 1 && u[4] >= t[4] && u[5] >= t[5]
  {
  }

  lemma TotalWithin(t: Tile, u: Tile)
    requires Within(t, u)
    ensures Total(t) <= Total(u)
  {
    assert t[0] <= u[0] && t[1] <= u[1] && t[2] <= u[2] && t[3] <= u[3] && t[4] <= u[4] && t[5] <= u[5] && t[6] <= u[6];
  }

  method GrowAll(layer: Layer, args: array<nat>, max: Tile)
    requires layer.Valid() && args.Length == 7
    requires Inside(args[..], max) && args[4] > 0 && args[5] > 0 && Fits(layer, args[..])
    modifies args
    ensures Inside(args[..], max) && args[4] > 0 && args[5] > 0 && Fits(layer, args[..])
    ensures Within(old(args[..]), args[..])
    ensures args[..] == Grown(layer, max, old(args[..]))
    ensures Settled(layer, args[..], max)
  {
    hide Fits, SizeOk, Settled, Total;
    var nothingIncreased := false;
    TotalWithin(args[..], max);
    while !nothingIncreased
      invariant Inside(args[..], max) && args[4] > 0 && args[5] > 0 && Fits(layer, args[..])
      invariant Within(old(args[..]), args[..]) && Total(args[..]) <= Total(max)
      invariant Grown(layer, max, args[..]) == Grown(layer, max, old(args[..]))
      invariant nothingIncreased ==> Settled(layer, args[..], max) && Passed(layer, max, args[..], 0) == args[..]
      decreases Total(max) - Total(args[..]), !nothingIncreased
    {
      ghost var before := args[..];
      nothingIncreased := GrowPass(layer, args, max);
      TotalWithin(before, args[..]);
      TotalWithin(args[..], max);
    }
  }

  // What growing comes to -----------------------------------------------------------------------------

  /** With every number of output columns up to this one the tile fits, and with more it does not. */
  lemma {:induction false} WidenedIsLargest(layer: Layer, max: Tile, t: Tile, c: nat)
    requires layer.Valid() && Inside(t, max) && t[4] > 0 && t[5] > 0 && Fits(layer, t)
    ensures var u := Widened(layer, max, t); u == t[OCOLS := u[OCOLS]] && t[OCOLS] <= u[OCOLS] <= max[OCOLS]
    ensures t[OCOLS] <= c <= max[OCOLS] ==>
              (Fits(layer, t[OCOLS := c]) <==> c <= Widened(layer, max, t)[OCOLS])
    decreases max[OCOLS] - t[OCOLS]
  {
    hide Fits;
    var n := t[OCOLS];
    if CanGrow(layer, t, max, OCOLS) {
      WidenedIsLargest(layer, max, t[OCOLS := n + 1], c);
      assert t[OCOLS := n + 1][OCOLS := c] == t[OCOLS := c];
      assert t[OCOLS := n] == t;
    } else {
      assert t[OCOLS := n] == t;
      if n < c <= max[OCOLS] && Fits(layer, t[OCOLS := c]) {
        FitsWithFewer(layer, t, n + 1, c);
      }
    }
  }

  lemma FitsWithFewer(layer: Layer, t: Tile, c: nat, d: nat)
    requires layer.Valid() && t[4] > 0 && t[5] > 0 && c <= d && Fits(layer, t[OCOLS := d])
    ensures Fits(layer, t[OCOLS := c])
  {
    hide Layer.Rows, Layer.MaxSpadRows, Layer.MaxAccRows;
    RowsMono(layer, t[OCOLS := c], t[OCOLS := d]);
  }

  /** Dimension i of a pass: it grows by one exactly if that stays inside the layer and both row budgets, and the tile
      as it is passes the size check. */
  ghost predicate GrowsIff(layer: Layer, max: Tile, t: Tile, i: nat, u: Tile)
    requires layer.Valid() && i < 7
  {
    && t[4] > 0 && t[5] > 0
    && u == if t[i] < max[i] && Fits(layer, t[i := t[i] + 1]) && SizeOk(layer, t) then t[i := t[i] + 1] else t
  }

  /** From t the dimensions from i on get their turn, one after the other, and u is what comes of it. */
  ghost predicate InOrder(layer: Layer, max: Tile, t: Tile, i: nat, u: Tile, ts: seq<Tile>)
    requires layer.Valid() && i <= 7
    decreases 7 - i
  {
    && |ts| == 8 - i && ts[0] == t
    && if i == 7 then u == t else GrowsIff(layer, max, t, i, ts[1]) && InOrder(layer, max, ts[1], i + 1, u, ts[1..])
  }

  lemma {:induction false} PassInOrder(layer: Layer, max: Tile, t: Tile, i: nat) returns (ts: seq<Tile>)
    requires layer.Valid() && i <= 7 && t[4] > 0 && t[5] > 0
    ensures InOrder(layer, max, t, i, Passed(layer, max, t, i), ts)
    decreases 7 - i
  {
    hide Fits, SizeOk, Passed;
    PassedNext(layer, max, t, i);
    if i == 7 {
      ts := [t];
    } else {
      var u := if CanGrow(layer, t, max, i) && SizeOk(layer, t) then t[i := t[i] + 1] else t;
      var us := PassInOrder(layer, max, u, i + 1);
      ts := [t] + us;
      assert ts[1..] == us && ts[1] == u;
    }
  }

  /** One whole pass. */
  ghost predicate IsPass(layer: Layer, max: Tile, t: Tile, u: Tile)
    requires layer.Valid()
  {
    exists ts :: InOrder(layer, max, t, 0, u, ts)
  }

  /** Each tile is what a pass makes of the one before and larger than it, and another pass leaves the last as it
      is. */
  ghost predicate InPasses(layer: Layer, max: Tile, us: seq<Tile>)
    requires layer.Valid()
  {
    && us != [] && IsPass(layer, max, us[|us| - 1], us[|us| - 1])
    && forall j :: 0 < j < |us| ==>
         IsPass(layer, max, us[j - 1], us[j]) && us[j] != us[j - 1] && Within(us[j - 1], us[j])
  }

  /** The last loop of the search in terms of single turns. */
  lemma {:induction false} GrownInPasses(layer: Layer, max: Tile, t: Tile) returns (us: seq<Tile>)
    requires layer.Valid() && Inside(t, max) && t[4] > 0 && t[5] > 0
    ensures InPasses(layer, max, us) && us[0] == t && us[|us| - 1] == Grown(layer, max, t)
    decreases Total(max) - Total(t)
  {
    hide Passed, InOrder, Total, Shaped, Within;
    PassedGrows(layer, max, t, 0);
    var u := Passed(layer, max, t, 0);
    TotalWithin(u, max);
    var ts := PassInOrder(layer, max, t, 0);
    assert IsPass(layer, max, t, u);
    if u == t {
      us := [t];
    } else {
      var rest := GrownInPasses(layer, max, u);
      us := [t] + rest;
      forall j | 0 < j < |us|
        ensures IsPass(layer, max, us[j - 1], us[j]) && us[j] != us[j - 1] && Within(us[j - 1], us[j])
      {
        if j > 1 {
          assert us[j] == rest[j - 1] && us[j - 1] == rest[j - 1 - 1];
        }
      }
      assert us[|us| - 1] == rest[|rest| - 1];
    }
  }

  /** Columns first, and then the other dimensions in turn. */
  ghost predicate IsGrown(layer: Layer, max: Tile, t: Tile, u: Tile) {
    && layer.Valid() && t[4] > 0 && t[5] > 0 && Inside(Widened(layer, max, t), max)
    && u == Grown(layer, max, Widened(layer, max, t))
  }

  // The whole search ----------------------------------------------------------------------------------

  datatype Key = Key(N: nat, C: nat, M: nat, S: nat, P: nat, Stride: nat, Padding: nat)
  datatype Loop = Loop(N: nat, C: nat, M: nat, S: nat, R: nat, Q: nat, P: nat)
  datatype Mapping = Mapping(total: Loop, outer: Loop, inner: Loop)

  function LayerOf(key: Key, dim: nat, spadBytes: nat, accumBytes: nat, precision: nat): Layer {
    Layer(key.Stride, key.Padding, key.Stride == 2 && key.S == 1
      && key.Padding == 0, dim, spadBytes, accumBytes, precision)
  }

  function WholeLayer(key: Key): Tile {
    [1, key.P, key.P, key.M, key.S, key.S, key.C]
  }

  /** The inner loop as the tile it came from. */
  function TileOf(inner: Loop): Tile {
    [inner.N, inner.P, inner.Q, inner.M, inner.S, inner.R, inner.C]
  }

  predicate Covers(total: nat, outer: nat, inner: nat) {
    total <= outer * inner < total + inner
  }

  predicate CoversAll(m: Mapping) {
    && Covers(m.total.N, m.outer.N, m.inner.N) && Covers(m.total.C, m.outer.C, m.inner.C)
    && Covers(m.total.M, m.outer.M, m.inner.M) && Covers(m.total.S, m.outer.S, m.inner.S)
    && Covers(m.total.R, m.outer.R, m.inner.R) && Covers(m.total.Q, m.outer.Q, m.inner.Q)
    && Covers(m.total.P, m.outer.P, m.inner.P)
  }

  /** It has a batch exactly if the all-ones tile fits. */
  ghost predicate BatchMatches(layer: Layer, t: Tile) {
    layer.Valid() && (t[0] > 0 <==> OnesFit(layer))
  }

  /** No single dimension can be grown by one without leaving the layer, a row budget, or the size check. */
  ghost predicate Maximal(layer: Layer, max: Tile, t: Tile)
    requires layer.Valid() && t[4] > 0 && t[5] > 0
  {
    forall i: nat :: i < 7 ==> t[i] == max[i] || !Fits(layer, t[i := t[i] + 1]) || !SizeOk(layer, t)
  }

  /** The tile is inside the layer and fits both buffers; it is what the shrunk one grows to, and maximal. */
  ghost predicate IsSearchResult(layer: Layer, max: Tile, t: Tile) {
    && layer.Valid() && AllPositive(max) && Inside(t, max) && t[4] > 0 && t[5] > 0
    && Within(Shrunk(layer, max), t) && Fits(layer, t) && Maximal(layer, max, t)
    && BatchMatches(layer, t) && IsGrown(layer, max, Shrunk(layer, max), t)
  }

  /** `calc_conv_mapping`. */
  method CalcMapping(key: Key, dim: nat, spadBytes: nat, accumBytes: nat, precision: nat) returns (r: Result<Mapping>)
    requires CanShrink(LayerOf(key, dim, spadBytes, accumBytes, precision), WholeLayer(key))
    ensures r.Success? <==> OnesFit(LayerOf(key, dim, spadBytes, accumBytes, precision))
    ensures r.Success? ==>
              && r.value.total == Loop(key.N, key.C, key.M, key.S, key.S, key.P, key.P) && CoversAll(r.value)
              && IsSearchResult(LayerOf(key, dim, spadBytes, accumBytes, precision), WholeLayer(key),
                                TileOf(r.value.inner))
              && AllPositive(TileOf(r.value.inner))
  {
    hide IsSearchResult, CanShrink, OnesFit;
    CanShrinkMeans(LayerOf(key, dim, spadBytes, accumBytes, precision), WholeLayer(key));
    var args := Search(LayerOf(key, dim, spadBytes, accumBytes, precision), WholeLayer(key));
    SearchedInside(LayerOf(key, dim, spadBytes, accumBytes, precision), WholeLayer(key), args);
    if args[0] == 0 {
      return DivisionByZero;
    }
    assert AllPositive(args);
    MappingCovers(key, args);
    r := Success(MappingOf(key, args));
    assert TileOf(r.value.inner) == args;
  }

  function MappingOf(key: Key, args: Tile): Mapping
    requires forall i :: 0 <= i < 7 ==> args[i] > 0
  {
    Mapping(Loop(key.N, key.C, key.M, key.S, key.S, key.P, key.P),
            Loop(CeilDiv(key.N, args[0]), CeilDiv(key.C, args[6]), CeilDiv(key.M, args[3]), CeilDiv(key.S, args[4]),
                 CeilDiv(key.S, args[5]), CeilDiv(key.P, args[2]), CeilDiv(key.P, args[1])),
            Loop(args[0], args[6], args[3], args[4], args[5], args[2], args[1]))
  }

  lemma MappingCovers(key: Key, args: Tile)
    requires forall i :: 0 <= i < 7 ==> args[i] > 0
    ensures CoversAll(MappingOf(key, args))
  {
    hide CeilDiv, Covers;
    OuterCovers(key.N, args[0]);
    OuterCovers(key.C, args[6]);
    OuterCovers(key.M, args[3]);
    OuterCovers(key.S, args[4]);
    OuterCovers(key.S, args[5]);
    OuterCovers(key.P, args[2]);
    OuterCovers(key.P, args[1]);
  }

  lemma OuterCovers(total: nat, inner: nat)
    requires inner > 0
    ensures Covers(total, CeilDiv(total, inner), inner)
  {
    CeilDivCovers(total, inner);
  }

  lemma CanShrinkMeans(layer: Layer, t: Tile)
    requires CanShrink(layer, t)
    ensures layer.Valid() && AllPositive(t)
  {
    hide OnesFit;
  }

  lemma SearchedInside(layer: Layer, max: Tile, t: Tile)
    requires IsSearchResult(layer, max, t)
    ensures layer.Valid() && (forall i :: 1 <= i < 7 ==> t[i] > 0) && (t[0] > 0 <==> OnesFit(layer))
  {
    hide Fits, SizeOk, Shrunk, OnesFit, IsGrown;
  }

  /** A batch that was lost does not come back, and one that was kept is not lost. */
  lemma BatchKept(layer: Layer, max: Tile, t: Tile)
    requires layer.Valid() && AllPositive(max) && Inside(t, max) && Within(Shrunk(layer, max), t)
    requires t[4] > 0 && t[5] > 0 && Fits(layer, t)
    ensures BatchMatches(layer, t)
  {
    hide Fits, Shrunk;
    ShrunkFits(layer, max);
    if t[0] > 0 && !OnesFit(layer) {
      assert AllPositive(t);
      NoneFits(layer, t);
    }
  }

  /** The three loops of the search, on the array they share. */
  method Search(layer: Layer, maxArgs: Tile) returns (t: Tile)
    requires CanShrink(layer, maxArgs)
    ensures IsSearchResult(layer, maxArgs, t)
  {
    hide Fits, SizeOk, Shrunk, CanShrink, BatchMatches, Widened, Grown;
    CanShrinkMeans(layer, maxArgs);
    var args := new nat[7](i requires 0 <= i < 7 => maxArgs[i]);
    assert args[..] == maxArgs;
    Shrink(layer, args);
    ShrunkInside(layer, maxArgs);
    ghost var shrunk := args[..];
    GrowColumns(layer, args, maxArgs);
    ghost var wider := args[..];
    assert Within(shrunk, wider);
    GrowAll(layer, args, maxArgs);
    t := args[..];
    forall i: nat | i < 7
      ensures t[i] == maxArgs[i] || !Fits(layer, t[i := t[i] + 1]) || !SizeOk(layer, t)
    {
      assert !(CanGrow(layer, t, maxArgs, i) && SizeOk(layer, t));
    }
    BatchKept(layer, maxArgs, t);
  }

  lemma ShrunkInside(layer: Layer, max: Tile)
    requires CanShrink(layer, max)
    ensures layer.Valid() && AllPositive(max) && Inside(Shrunk(layer, max), max)
    ensures var u := Shrunk(layer, max); u[4] > 0 && u[5] > 0 && Fits(layer, u)
  {
    ShrunkFits(layer, max);
    NoBatchFits(layer, max);
    hide Fits, Shrunk;
  }

  // Double buffering ----------------------------------------------------------------------------------

  /** One block of `dim` channels holds at least as many elements as there are channels. */
  lemma CeilingHolds(x: nat, dim: nat)
    requires dim > 0
    ensures x <= Blocks(x, dim) * dim
  {
    BlocksIsCeilDiv(x, dim);
    CeilDivCovers(x, dim);
  }

  lemma RowsHold(x: nat, blocks: nat, dim: nat, b: nat, c: nat)
    requires x <= blocks * dim
    ensures x * b * c <= blocks * b * c * dim
  {
    MulMono(x, blocks * dim, b * c);
    assert x * b * c == x * (b * c);
    assert blocks * b * c * dim == blocks * dim * (b * c);
  }

  /** Bytes of one tile: the input it reads, the weights, and the 4-byte outputs it accumulates. */
  function InputBytes(layer: Layer, t: Tile): int
    requires t[4] > 0 && t[5] > 0
  {
    t[6] * t[0] * (Extent(layer, t[1], t[4]) * Extent(layer, t[2], t[5])) * layer.precision
  }

  function WeightBytes(layer: Layer, t: Tile): int {
    t[3] * t[6] * (t[5] * t[4]) * layer.precision
  }

  function OutputBytes(t: Tile): int {
    t[3] * t[0] * (t[1] * t[2]) * 4
  }

  /** A tile fits exactly if twice its rows, of `dim` elements each, go into the scratchpad, and twice its output rows
      into the accumulator, whose elements take four bytes. */
  lemma FitsIff(layer: Layer, t: Tile)
    requires layer.Valid() && t[4] > 0 && t[5] > 0
    ensures Fits(layer, t) <==>
              && (InputRows(layer, t) + WeightRows(layer, t)) * (layer.dim * layer.precision * 2) <= layer.spadBytes
              && OutputRows(layer, t) * (layer.dim * 4 * 2) <= layer.accumBytes
  {
    hide InputRows, WeightRows, OutputRows, Layer.Rows, NatDiv;
    RowCounts(layer, t);
    GoesInto(InputRows(layer, t) + WeightRows(layer, t), layer.spadBytes, layer.dim * layer.precision * 2);
    GoesInto(OutputRows(layer, t), layer.accumBytes, layer.dim * 4 * 2);
  }

  lemma GoesInto(rows: int, bytes: nat, row: int)
    requires row > 0
    ensures rows <= NatDiv(bytes, row) <==> rows * row <= bytes
  {
    var q := NatDiv(bytes, row);
    DivAtMost(bytes, row);
    if rows <= q {
      Ordered(rows, q, row);
    } else {
      Ordered(q + 1, rows, row);
    }
  }

  lemma Ordered(a: int, b: int, row: int)
    requires a <= b && row > 0
    ensures a * row <= b * row
  {
  }

  /** ONNXim/README.md:188: input and weights take at most half the scratchpad, the output at most half the
      accumulator. */
  lemma FitsIsDoubleBuffered(layer: Layer, t: Tile)
    requires layer.Valid() && t[4] > 0 && t[5] > 0 && Fits(layer, t)
    ensures 2 * (InputBytes(layer, t) + WeightBytes(layer, t)) <= layer.spadBytes
    ensures 2 * OutputBytes(t) <= layer.accumBytes
  {
    hide Blocks, Extent, CalcConvMapping, Layer.Rows;
    RowCounts(layer, t);
    CeilingHolds(t[3], layer.dim);
    CeilingHolds(t[6], layer.dim);
    var in_, w, out := InputRows(layer, t), WeightRows(layer, t), OutputRows(layer, t);
    RowsHold(t[6], Blocks(t[6], layer.dim), layer.dim, t[0], Extent(layer, t[1], t[4]) * Extent(layer, t[2], t[5]));
    RowsHold(t[3], Blocks(t[3], layer.dim), layer.dim, t[6], t[5] * t[4]);
    RowsHold(t[3], Blocks(t[3], layer.dim), layer.dim, t[0], t[1] * t[2]);
    DivAtMost(layer.spadBytes, Double(layer.dim, layer.precision));
    DivAtMost(layer.accumBytes, Double(layer.dim, 4));
    var inE := t[6] * t[0] * (Extent(layer, t[1], t[4]) * Extent(layer, t[2], t[5]));
    var wE, outE := t[3] * t[6] * (t[5] * t[4]), t[3] * t[0] * (t[1] * t[2]);
    RowBytes(inE + wE, in_ + w, layer.dim, layer.precision, layer.MaxSpadRows());
    RowBytes(outE, out, layer.dim, 4, layer.MaxAccRows());
    assert (inE + wE) * layer.precision == inE * layer.precision + wE * layer.precision;
  }

  lemma RowBytes(elements: int, rows: int, dim: nat, width: nat, maxRows: nat)
    requires elements <= rows * dim && rows <= maxRows
    ensures 2 * (elements * width) <= maxRows * (dim * width * 2)
  {
    MulMono(rows, maxRows, dim);
    MulMono(elements, maxRows * dim, width);
    assert maxRows * (dim * width * 2) == 2 * (maxRows * dim * width);
  }
}
