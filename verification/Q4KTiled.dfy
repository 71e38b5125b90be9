/**
  The four-bit float kernels with every vector operation left uninterpreted: the token-tiled
  kernel applies to each token the operations of the single-row kernel in the same order, and
  the batched linear layer's transpose makes it repeated matrix-vector products.
  */
module Q4KTiled {
  import opened I2s
  import Q4KQ8

  const BLOCK_BYTES4: nat := Q4KQ8.BLOCK_BYTES4
  const VALUES4: nat := Q4KQ8.VALUES4
  const TOKEN_TILE: nat := 4

  /**
    Vectors of `width` floats, 8 for AVX2 and 4 for SSE2. Nothing is assumed of the
    operations: addition need be neither associative nor commutative.
    */
  datatype Simd<!F, !V> = Simd(
    width: nat,
    half: (u8, u8) -> F,
    byte: (F, int) -> F,
    set1: F -> V,
    convert: seq<int> -> V,
    load: seq<F> -> V,
    zero: V,
    add: (V, V) -> V,
    sub: (V, V) -> V,
    mul: (V, V) -> V,
    hsum: V -> F)

  /** The two widths the kernels are compiled for. */
  predicate IsWidth(width: nat) {
    width == 8 || width == 4
  }

  /** A chunk boundary within a group of 32. */
  predicate IsBoundary(width: nat, offset: nat) {
    IsWidth(width) && offset <= 32 && (if width == 8 then offset % 8 == 0 else offset % 4 == 0)
  }

  // ---------------------------------------------------------------------------
  // One step
  // ---------------------------------------------------------------------------

  /** The weights of one chunk of a group, from its quants, scale and minimum. */
  function Weights<F, V>(m: Simd<F, V>, quants: seq<int>, scale: V, minimum: V): V {
    m.sub(m.mul(m.convert(quants), scale), minimum)
  }

  function GroupScale<F, V>(m: Simd<F, V>, block: seq<u8>, g: nat): V
    requires |block| == BLOCK_BYTES4 && g < 8
  {
    m.set1(m.byte(m.half(block[0], block[1]), Q4KQ8.ScaleMin(block[4..16], g).0))
  }

  function GroupMin<F, V>(m: Simd<F, V>, block: seq<u8>, g: nat): V
    requires |block| == BLOCK_BYTES4 && g < 8
  {
    m.set1(m.byte(m.half(block[2], block[3]), Q4KQ8.ScaleMin(block[4..16], g).1))
  }

  /** The weights of group `g` from `offset`. */
  function ChunkWeights<F, V>(m: Simd<F, V>, block: seq<u8>, g: nat, offset: nat): V
    requires |block| == BLOCK_BYTES4 && g < 8 && offset + m.width <= 32
  {
    Weights(m, Q4KQ8.Quants(block, g)[offset..offset + m.width], GroupScale(m, block, g), GroupMin(m, block, g))
  }

  /** Multiply and add, in that order. */
  function Accumulate<F, V>(m: Simd<F, V>, sum: V, weights: V, x: seq<F>): V {
    m.add(sum, m.mul(weights, m.load(x)))
  }

  /** Both groups of a band, low then high. */
  function ChunkStep<F, V>(m: Simd<F, V>, block: seq<u8>, x: seq<F>, band: nat, offset: nat, sum: V): V
    requires |block| == BLOCK_BYTES4 && |x| == VALUES4 && band < 4 && offset + m.width <= 32
  {
    var low, high := 64 * band + offset, 64 * band + 32 + offset;
    Accumulate(m, Accumulate(m, sum, ChunkWeights(m, block, 2 * band, offset), x[low..low + m.width]),
               ChunkWeights(m, block, 2 * band + 1, offset), x[high..high + m.width])
  }

  /** The accumulator after a band's chunks up to `offset`. */
  function AfterChunks<F, V>(m: Simd<F, V>, block: seq<u8>, x: seq<F>, band: nat, offset: nat, sum: V): V
    requires |block| == BLOCK_BYTES4 && |x| == VALUES4 && band < 4 && IsBoundary(m.width, offset)
    decreases offset
  {
    if offset == 0 then sum else
    ChunkStep(m, block, x, band, offset - m.width, AfterChunks(m, block, x, band, offset - m.width, sum))
  }

  function AfterBands<F, V>(m: Simd<F, V>, block: seq<u8>, x: seq<F>, n: nat, sum: V): V
    requires |block| == BLOCK_BYTES4 && |x| == VALUES4 && n <= 4 && IsWidth(m.width)
  {
    if n == 0 then sum else
    BandIsBoundary(m.width);
    AfterChunks(m, block, x, n - 1, 32, AfterBands(m, block, x, n - 1, sum))
  }

  lemma BandIsBoundary(width: nat)
    requires IsWidth(width)
    ensures IsBoundary(width, 32)
  {
  }

  /** The accumulator after `n` blocks of a row. */
  function AfterBlocks<F, V>(m: Simd<F, V>, row: seq<u8>, x: seq<F>, n: nat): V
    requires BLOCK_BYTES4 * n <= |row| && VALUES4 * n <= |x| && IsWidth(m.width)
  {
    if n == 0 then m.zero else
    AfterBands(m, row[BLOCK_BYTES4 * (n - 1)..BLOCK_BYTES4 * n], x[VALUES4 * (n - 1)..VALUES4 * n], 4,
               AfterBlocks(m, row, x, n - 1))
  }

  /** A row of whole blocks for `values` values. */
  predicate IsRow(row: seq<u8>, values: nat) {
    |row| % BLOCK_BYTES4 == 0 && values == |row| / BLOCK_BYTES4 * VALUES4
  }

  /** The single-row kernel's result. */
  function RowDot4<F, V>(m: Simd<F, V>, row: seq<u8>, x: seq<F>): F
    requires IsRow(row, |x|) && IsWidth(m.width)
  {
    m.hsum(AfterBlocks(m, row, x, |row| / BLOCK_BYTES4))
  }

  // ---------------------------------------------------------------------------
  // One token
  // ---------------------------------------------------------------------------

  /** A band's quants, scales and minima, as the kernels prepare them once for its chunks. */
  datatype BandData<!V> = BandData(lowQuants: seq<int>, highQuants: seq<int>,
                                   lowScale: V, lowMin: V, highScale: V, highMin: V)

  method PrepareBand<F, V(0)>(m: Simd<F, V>, block: seq<u8>, band: nat) returns (b: BandData<V>)
    requires |block| == BLOCK_BYTES4 && band < 4
    ensures IsBandData(m, block, band, b)
  {
    var low, high := 2 * band, 2 * band + 1;
    var bytes := block[16 + 32 * band..16 + 32 * band + 32];
    assert low / 2 == band && high / 2 == band && low % 2 == 0 && high % 2 == 1;
    b := BandData(Q4KQ8.LowNibbles(bytes), Q4KQ8.HighNibbles(bytes),
                  GroupScale(m, block, low), GroupMin(m, block, low), GroupScale(m, block, high), GroupMin(m, block, high));
  }

  ghost predicate IsBandData<F, V>(m: Simd<F, V>, block: seq<u8>, band: nat, b: BandData<V>)
    requires |block| == BLOCK_BYTES4 && band < 4
  {
    b == BandData(Q4KQ8.Quants(block, 2 * band), Q4KQ8.Quants(block, 2 * band + 1),
                  GroupScale(m, block, 2 * band), GroupMin(m, block, 2 * band),
                  GroupScale(m, block, 2 * band + 1), GroupMin(m, block, 2 * band + 1))
  }

  /** The next chunk boundary, and what passing it adds. */
  lemma NextChunk<F, V>(m: Simd<F, V>, block: seq<u8>, x: seq<F>, band: nat, offset: nat, sum: V)
    requires |block| == BLOCK_BYTES4 && |x| == VALUES4 && band < 4 && IsBoundary(m.width, offset) && offset < 32
    ensures IsBoundary(m.width, offset + m.width)
    ensures AfterChunks(m, block, x, band, offset + m.width, sum)
         == ChunkStep(m, block, x, band, offset, AfterChunks(m, block, x, band, offset, sum))
  {
    hide ChunkStep;
  }

  method SingleBand<F(0), V(0)>(m: Simd<F, V>, block: seq<u8>, x: seq<F>, band: nat, start: V) returns (sum: V)
    requires |block| == BLOCK_BYTES4 && |x| == VALUES4 && band < 4 && IsWidth(m.width)
    ensures sum == AfterChunks(m, block, x, band, 32, start)
  {
    hide Weights, Accumulate, GroupScale, GroupMin, AfterChunks, Q4KQ8.Quants;
    var b := PrepareBand(m, block, band);
    sum := start;
    var offset := 0;
    NoChunks(m, block, x, band, start);
    while offset < 32
      invariant IsBoundary(m.width, offset)
      invariant sum == AfterChunks(m, block, x, band, offset, start)
    {
      NextChunk(m, block, x, band, offset, start);
      var low, high := 64 * band + offset, 64 * band + 32 + offset;
      sum := Accumulate(m, sum, Weights(m, b.lowQuants[offset..offset + m.width], b.lowScale, b.lowMin), x[low..low + m.width]);
      sum := Accumulate(m, sum, Weights(m, b.highQuants[offset..offset + m.width], b.highScale, b.highMin), x[high..high + m.width]);
      offset := offset + m.width;
    }
  }

  lemma NoChunks<F, V>(m: Simd<F, V>, block: seq<u8>, x: seq<F>, band: nat, sum: V)
    requires |block| == BLOCK_BYTES4 && |x| == VALUES4 && band < 4 && IsWidth(m.width)
    ensures AfterChunks(m, block, x, band, 0, sum) == sum
  {
  }

  method DotRow4<F(0), V(0)>(m: Simd<F, V>, row: seq<u8>, x: seq<F>) returns (r: F)
    requires IsRow(row, |x|) && IsWidth(m.width)
    ensures r == RowDot4(m, row, x)
  {
    hide AfterChunks;
    var sum := m.zero;
    var k := 0;
    while k < |row| / BLOCK_BYTES4
      invariant 0 <= k <= |row| / BLOCK_BYTES4
      invariant sum == AfterBlocks(m, row, x, k)
    {
      var block := row[BLOCK_BYTES4 * k..BLOCK_BYTES4 * (k + 1)];
      var xs := x[VALUES4 * k..VALUES4 * (k + 1)];
      ghost var start := sum;
      var band := 0;
      while band < 4
        invariant 0 <= band <= 4
        invariant sum == AfterBands(m, block, xs, band, start)
      {
        sum := SingleBand(m, block, xs, band, sum);
        band := band + 1;
      }
      k := k + 1;
    }
    r := m.hsum(sum);
  }

  // ---------------------------------------------------------------------------
  // Many tokens
  // ---------------------------------------------------------------------------

  /** Token `t` of a token-major input; tokens past the end read as empty. */
  function Token<F>(inputs: seq<F>, dim: nat, t: nat): (r: seq<F>)
    requires |inputs| >= RowStart(dim, t) + dim
    ensures |r| == dim
  {
    inputs[RowStart(dim, t)..RowStart(dim, t) + dim]
  }

  ghost predicate HasTokens<F>(inputs: seq<F>, dim: nat, count: nat) {
    forall t: nat :: t < count ==> RowStart(dim, t) + dim <= |inputs|
  }

  /** One group's weights against every token of the tile. */
  method AccumulateTile<F, V>(m: Simd<F, V>, weights: V, xs: seq<seq<F>>, at: nat, sums: seq<V>) returns (sums': seq<V>)
    requires |sums| == |xs| && forall t :: 0 <= t < |xs| ==> at + m.width <= |xs[t]|
    ensures |sums'| == |sums|
    ensures forall t :: 0 <= t < |xs| ==> sums'[t] == Accumulate(m, sums[t], weights, xs[t][at..at + m.width])
  {
    sums' := sums;
    var t := 0;
    while t < |xs|
      invariant 0 <= t <= |xs| && |sums'| == |sums|
      invariant forall i :: 0 <= i < t ==> sums'[i] == Accumulate(m, sums[i], weights, xs[i][at..at + m.width])
      invariant forall i :: t <= i < |xs| ==> sums'[i] == sums[i]
    {
      sums' := sums'[t := Accumulate(m, sums'[t], weights, xs[t][at..at + m.width])];
      t := t + 1;
    }
  }

  method TiledBand<F(0), V(0)>(m: Simd<F, V>, block: seq<u8>, xs: seq<seq<F>>, band: nat, start: seq<V>) returns (sums: seq<V>)
    requires |block| == BLOCK_BYTES4 && band < 4 && IsWidth(m.width) && |start| == |xs|
    requires forall t :: 0 <= t < |xs| ==> |xs[t]| == VALUES4
    ensures |sums| == |start|
    ensures forall t :: 0 <= t < |xs| ==> sums[t] == AfterChunks(m, block, xs[t], band, 32, start[t])
  {
    hide Weights, Accumulate, GroupScale, GroupMin, AfterChunks, Q4KQ8.Quants;
    var b := PrepareBand(m, block, band);
    sums := start;
    var offset := 0;
    forall t | 0 <= t < |xs| ensures AfterChunks(m, block, xs[t], band, 0, start[t]) == start[t] {
      NoChunks(m, block, xs[t], band, start[t]);
    }
    while offset < 32
      invariant IsBoundary(m.width, offset) && |sums| == |start|
      invariant forall t :: 0 <= t < |xs| ==> sums[t] == AfterChunks(m, block, xs[t], band, offset, start[t])
    {
      sums := TiledChunk(m, block, xs, band, b, offset, start, sums);
      BoundaryStep(m.width, offset);
      offset := offset + m.width;
    }
  }

  lemma BoundaryStep(width: nat, offset: nat)
    requires IsBoundary(width, offset) && offset < 32
    ensures IsBoundary(width, offset + width)
  {
  }

  /** One chunk of the band: its weights once, then every token's low part, then every token's high part. */
  method TiledChunk<F, V>(m: Simd<F, V>, block: seq<u8>, xs: seq<seq<F>>, band: nat, b: BandData<V>, offset: nat,
                          ghost start: seq<V>, sums: seq<V>) returns (sums': seq<V>)
    requires |block| == BLOCK_BYTES4 && band < 4 && IsBoundary(m.width, offset) && offset < 32
    requires IsBandData(m, block, band, b)
    requires |sums| == |start| == |xs|
    requires forall t :: 0 <= t < |xs| ==> |xs[t]| == VALUES4
    requires forall t :: 0 <= t < |xs| ==> sums[t] == AfterChunks(m, block, xs[t], band, offset, start[t])
    ensures |sums'| == |start| && IsBoundary(m.width, offset + m.width)
    ensures forall t :: 0 <= t < |xs| ==> sums'[t] == AfterChunks(m, block, xs[t], band, offset + m.width, start[t])
  {
    hide Weights, Accumulate, GroupScale, GroupMin, AfterChunks, Q4KQ8.Quants;
    BoundaryStep(m.width, offset);
    var lowWeights := Weights(m, b.lowQuants[offset..offset + m.width], b.lowScale, b.lowMin);
    var highWeights := Weights(m, b.highQuants[offset..offset + m.width], b.highScale, b.highMin);
    var mid := AccumulateTile(m, lowWeights, xs, 64 * band + offset, sums);
    sums' := AccumulateTile(m, highWeights, xs, 64 * band + 32 + offset, mid);
    forall t | 0 <= t < |xs|
      ensures sums'[t] == AfterChunks(m, block, xs[t], band, offset + m.width, start[t])
    {
      NextChunk(m, block, xs[t], band, offset, start[t]);
    }
  }

  /** One tile of up to four tokens, the row decoded once for all of them. */
  method DotTile<F(0), V(0)>(m: Simd<F, V>, row: seq<u8>, xs: seq<seq<F>>) returns (outs: seq<F>)
    requires IsWidth(m.width) && forall t :: 0 <= t < |xs| ==> IsRow(row, |xs[t]|)
    ensures |outs| == |xs|
    ensures forall t :: 0 <= t < |xs| ==> outs[t] == RowDot4(m, row, xs[t])
  {
    hide AfterChunks, AfterBands;
    var sums := seq(|xs|, _ => m.zero);
    var k := 0;
    while k < |row| / BLOCK_BYTES4
      invariant 0 <= k <= |row| / BLOCK_BYTES4 && |sums| == |xs|
      invariant forall t :: 0 <= t < |xs| ==> sums[t] == AfterBlocks(m, row, xs[t], k)
    {
      var block := row[BLOCK_BYTES4 * k..BLOCK_BYTES4 * (k + 1)];
      sums := TiledBlock(m, block, seq(|xs|, t requires 0 <= t < |xs| => xs[t][VALUES4 * k..VALUES4 * (k + 1)]), sums);
      k := k + 1;
    }
    outs := seq(|xs|, t requires 0 <= t < |xs| => m.hsum(sums[t]));
  }

  method TiledBlock<F(0), V(0)>(m: Simd<F, V>, block: seq<u8>, xs: seq<seq<F>>, start: seq<V>) returns (sums: seq<V>)
    requires |block| == BLOCK_BYTES4 && IsWidth(m.width) && |start| == |xs|
    requires forall t :: 0 <= t < |xs| ==> |xs[t]| == VALUES4
    ensures |sums| == |start|
    ensures forall t :: 0 <= t < |xs| ==> sums[t] == AfterBands(m, block, xs[t], 4, start[t])
  {
    hide AfterChunks;
    sums := start;
    var band := 0;
    while band < 4
      invariant 0 <= band <= 4 && |sums| == |start|
      invariant forall t :: 0 <= t < |xs| ==> sums[t] == AfterBands(m, block, xs[t], band, start[t])
    {
      sums := TiledBand(m, block, xs, band, sums);
      band := band + 1;
    }
  }

  /** The inputs of `len` tokens from `tile` on. */
  function TileTokens<F>(inputs: seq<F>, dim: nat, tile: nat, len: nat): (xs: seq<seq<F>>)
    requires HasTokens(inputs, dim, tile + len)
    ensures |xs| == len && forall i: nat :: i < len ==> |xs[i]| == dim && xs[i] == Token(inputs, dim, tile + i)
  {
    if len == 0 then [] else TileTokens(inputs, dim, tile, len - 1) + [Token(inputs, dim, tile + len - 1)]
  }

  /** Any number of tokens, four at a time, the last tile shorter. */
  method DotRows4<F(0), V(0)>(m: Simd<F, V>, row: seq<u8>, inputs: seq<F>, dim: nat, outputs: array<F>)
    requires IsRow(row, dim) && IsWidth(m.width)
    requires |inputs| == RowStart(dim, outputs.Length)
    modifies outputs
    ensures HasTokens(inputs, dim, outputs.Length)
    ensures forall t: nat :: t < outputs.Length ==> outputs[t] == RowDot4(m, row, Token(inputs, dim, t))
  {
    hide RowStart, RowDot4, IsRow;
    TokensFit(inputs, dim, outputs.Length);
    var tile := 0;
    while tile < outputs.Length
      invariant 0 <= tile <= outputs.Length
      invariant forall t: nat :: t < tile ==> outputs[t] == RowDot4(m, row, Token(inputs, dim, t))
    {
      var len := if outputs.Length - tile < TOKEN_TILE then outputs.Length - tile else TOKEN_TILE;
      var xs := TileTokens(inputs, dim, tile, len);
      var outs := DotTile(m, row, xs);
      var i := 0;
      while i < len
        invariant 0 <= i <= len
        invariant forall t: nat :: t < tile + i ==> outputs[t] == RowDot4(m, row, Token(inputs, dim, t))
      {
        outputs[tile + i] := outs[i];
        i := i + 1;
      }
      tile := tile + len;
    }
  }

  lemma TokensFit<F>(inputs: seq<F>, dim: nat, count: nat)
    requires |inputs| >= RowStart(dim, count)
    ensures HasTokens(inputs, dim, count)
  {
    hide RowStart;
    forall t: nat | t < count ensures RowStart(dim, t) + dim <= |inputs| {
      StartsGrow(dim, t, count);
    }
  }

  lemma StartsGrow(dim: nat, t: nat, count: nat)
    requires t < count
    ensures RowStart(dim, t) + dim <= RowStart(dim, count)
  {
    assert (count - t - 1) * dim >= 0;
    assert count * dim == t * dim + dim + (count - t - 1) * dim;
  }

  // ---------------------------------------------------------------------------
  // The linear layer
  // ---------------------------------------------------------------------------

  /** A four-bit matrix of `outDim` rows. */
  datatype Weight4 = Weight4(inDim: nat, outDim: nat, data: seq<u8>)

  function RowBytes(inDim: nat): nat {
    inDim / VALUES4 * BLOCK_BYTES4
  }

  predicate ValidWeight4(w: Weight4) {
    && w.inDim > 0 && w.outDim > 0 && w.inDim % VALUES4 == 0
    && |w.data| == RowStart(RowBytes(w.inDim), w.outDim)
  }

  function WeightRow(w: Weight4, j: nat): (r: seq<u8>)
    ensures |r| == RowBytes(w.inDim)
  {
    RowAt(w.data, RowBytes(w.inDim), j)
  }

  /** Every row has the bytes for the input dimension. */
  ghost predicate RowsFit(w: Weight4) {
    forall j: nat :: IsRow(WeightRow(w, j), w.inDim)
  }

  lemma RowSize(w: Weight4)
    requires ValidWeight4(w)
    ensures RowsFit(w)
  {
    assert RowBytes(w.inDim) / BLOCK_BYTES4 == w.inDim / VALUES4;
  }

  lemma RowSlice(w: Weight4, j: nat)
    requires ValidWeight4(w) && j < w.outDim
    ensures var start, rowBytes := RowStart(RowBytes(w.inDim), j), RowBytes(w.inDim);
      start + rowBytes <= |w.data| && w.data[start..start + rowBytes] == WeightRow(w, j)
      && IsRow(WeightRow(w, j), w.inDim)
  {
    RowSize(w);
    hide RowStart, RowAt, RowBytes, IsRow;
    RowFits(w.data, RowBytes(w.inDim), w.outDim, j);
  }

  /** One token's output: each row against it. */
  method Matvec4<F(0), V(0)>(m: Simd<F, V>, w: Weight4, x: seq<F>, output: array<F>)
    requires ValidWeight4(w) && IsWidth(m.width) && |x| == w.inDim && output.Length == w.outDim
    modifies output
    ensures RowsFit(w)
    ensures forall j: nat :: j < w.outDim ==> output[j] == RowDot4(m, WeightRow(w, j), x)
  {
    hide RowStart, RowDot4, WeightRow, RowBytes, IsRow, ValidWeight4;
    RowSize(w);
    var rowBytes := RowBytes(w.inDim);
    var j := 0;
    while j < w.outDim
      invariant 0 <= j <= w.outDim
      invariant forall i: nat :: i < j ==> output[i] == RowDot4(m, WeightRow(w, i), x)
    {
      RowSlice(w, j);
      var start := RowStart(rowBytes, j);
      output[j] := DotRow4(m, w.data[start..start + rowBytes], x);
      j := j + 1;
    }
  }

  /** Row-major results of all rows: element (j, t) is row `j` against token `t`. */
  method RowMajor<F(0), V(0)>(m: Simd<F, V>, w: Weight4, inputs: seq<F>, tokens: nat) returns (rows: seq<seq<F>>)
    requires ValidWeight4(w) && IsWidth(m.width) && |inputs| == RowStart(w.inDim, tokens)
    ensures RowsFit(w)
    ensures HasTokens(inputs, w.inDim, tokens)
    ensures |rows| == w.outDim && forall j: nat :: j < w.outDim ==> |rows[j]| == tokens
    ensures forall j: nat, t: nat :: j < w.outDim && t < tokens ==>
      rows[j][t] == RowDot4(m, WeightRow(w, j), Token(inputs, w.inDim, t))
  {
    hide RowStart, RowDot4, WeightRow, RowBytes, IsRow, ValidWeight4;
    RowSize(w);
    TokensFit(inputs, w.inDim, tokens);
    var rowBytes := RowBytes(w.inDim);
    rows := [];
    var j := 0;
    while j < w.outDim
      invariant 0 <= j <= w.outDim && |rows| == j
      invariant forall i: nat :: i < j ==> |rows[i]| == tokens
      invariant forall i: nat, t: nat :: i < j && t < tokens ==>
        rows[i][t] == RowDot4(m, WeightRow(w, i), Token(inputs, w.inDim, t))
    {
      RowSlice(w, j);
      var start := RowStart(rowBytes, j);
      var values := new F[tokens];
      DotRows4(m, w.data[start..start + rowBytes], inputs, w.inDim, values);
      rows := rows + [values[..]];
      j := j + 1;
    }
  }

  /** Token-major positions do not collide. */
  lemma Apart(dim: nat, t: nat, j: nat, u: nat, i: nat)
    requires i < dim && j < dim && (t != u || j != i)
    ensures RowStart(dim, t) + j != RowStart(dim, u) + i
  {
    if t < u {
      StartsGrow(dim, t, u);
    } else if u < t {
      StartsGrow(dim, u, t);
    }
  }

  lemma Within(dim: nat, t: nat, j: nat, count: nat)
    requires j < dim && t < count
    ensures RowStart(dim, t) + j < RowStart(dim, count)
  {
    hide RowStart;
    StartsGrow(dim, t, count);
  }

  /** The rows before `j`, and the first `t` tokens of row `j`, are in their token-major places. */
  ghost predicate Transposed<F(!new)>(rows: seq<seq<F>>, output: seq<F>, outDim: nat, tokens: nat, j: nat, t: nat)
    requires |rows| == outDim && |output| == RowStart(outDim, tokens) && forall i :: 0 <= i < outDim ==> |rows[i]| == tokens
  {
    forall i: nat, u: nat :: i < outDim && u < tokens && (i < j || (i == j && u < t)) ==> Placed(rows, output, outDim, i, u)
  }

  /** Row `i`'s value for token `u` is at its token-major place. */
  ghost predicate Placed<F>(rows: seq<seq<F>>, output: seq<F>, outDim: nat, i: nat, u: nat)
    requires i < |rows| && u < |rows[i]|
  {
    RowStart(outDim, u) + i < |output| && output[RowStart(outDim, u) + i] == rows[i][u]
  }

  lemma PlacedNext<F(!new)>(rows: seq<seq<F>>, before: seq<F>, after: seq<F>, outDim: nat, tokens: nat, j: nat, t: nat)
    requires |rows| == outDim && |before| == |after| == RowStart(outDim, tokens)
    requires forall i :: 0 <= i < outDim ==> |rows[i]| == tokens
    requires j < outDim && t < tokens && Transposed(rows, before, outDim, tokens, j, t)
    requires RowStart(outDim, t) + j < |before| && after == before[RowStart(outDim, t) + j := rows[j][t]]
    ensures Transposed(rows, after, outDim, tokens, j, t + 1)
  {
    hide RowStart;
    forall i: nat, u: nat | i < outDim && u < tokens && (i < j || (i == j && u < t + 1))
      ensures Placed(rows, after, outDim, i, u)
    {
      Within(outDim, u, i, tokens);
      if i != j || u != t {
        Apart(outDim, t, j, u, i);
        assert Placed(rows, before, outDim, i, u);
      }
    }
  }

  /** Element `j` of token `t`'s output is row `j` against that token. */
  ghost predicate TokenOutput<F, V>(m: Simd<F, V>, w: Weight4, inputs: seq<F>, output: seq<F>, t: nat, j: nat)
    requires RowsFit(w) && IsWidth(m.width) && RowStart(w.inDim, t) + w.inDim <= |inputs|
  {
    RowStart(w.outDim, t) + j < |output|
    && output[RowStart(w.outDim, t) + j] == RowDot4(m, WeightRow(w, j), Token(inputs, w.inDim, t))
  }

  /**
    The batched layer: rows first, then the transpose to token-major order. Each token's slice
    of the output is what the single-token product of that token gives.
    */
  method Batched4<F(0, !new), V(0)>(m: Simd<F, V>, w: Weight4, inputs: seq<F>, tokens: nat, output: array<F>)
    requires ValidWeight4(w) && IsWidth(m.width) && |inputs| == RowStart(w.inDim, tokens)
    requires output.Length == RowStart(w.outDim, tokens)
    modifies output
    ensures RowsFit(w)
    ensures HasTokens(inputs, w.inDim, tokens)
    ensures forall t: nat, j: nat :: t < tokens && j < w.outDim ==> TokenOutput(m, w, inputs, output[..], t, j)
  {
    hide RowStart, RowDot4, WeightRow, IsRow, ValidWeight4, Transposed;
    var rows := RowMajor(m, w, inputs, tokens);
    var j := 0;
    NonePlaced(rows, output[..], w.outDim, tokens);
    while j < w.outDim
      invariant 0 <= j <= w.outDim
      invariant Transposed(rows, output[..], w.outDim, tokens, j, 0)
    {
      var t := 0;
      while t < tokens
        invariant 0 <= t <= tokens
        invariant Transposed(rows, output[..], w.outDim, tokens, j, t)
      {
        Within(w.outDim, t, j, tokens);
        ghost var before := output[..];
        output[RowStart(w.outDim, t) + j] := rows[j][t];
        PlacedNext(rows, before, output[..], w.outDim, tokens, j, t);
        t := t + 1;
      }
      RowPlaced(rows, output[..], w.outDim, tokens, j);
      j := j + 1;
    }
    forall t: nat, j: nat | t < tokens && j < w.outDim
      ensures TokenOutput(m, w, inputs, output[..], t, j)
    {
      IsPlaced(rows, output[..], w.outDim, tokens, j, t);
      assert rows[j][t] == RowDot4(m, WeightRow(w, j), Token(inputs, w.inDim, t));
    }
  }

  lemma NonePlaced<F(!new)>(rows: seq<seq<F>>, output: seq<F>, outDim: nat, tokens: nat)
    requires |rows| == outDim && |output| == RowStart(outDim, tokens) && forall i :: 0 <= i < outDim ==> |rows[i]| == tokens
    ensures Transposed(rows, output, outDim, tokens, 0, 0)
  {
  }

  lemma RowPlaced<F(!new)>(rows: seq<seq<F>>, output: seq<F>, outDim: nat, tokens: nat, j: nat)
    requires |rows| == outDim && |output| == RowStart(outDim, tokens) && forall i :: 0 <= i < outDim ==> |rows[i]| == tokens
    requires Transposed(rows, output, outDim, tokens, j, tokens)
    ensures Transposed(rows, output, outDim, tokens, j + 1, 0)
  {
    hide Placed;
  }

  lemma IsPlaced<F(!new)>(rows: seq<seq<F>>, output: seq<F>, outDim: nat, tokens: nat, i: nat, u: nat)
    requires |rows| == outDim && |output| == RowStart(outDim, tokens) && forall i :: 0 <= i < outDim ==> |rows[i]| == tokens
    requires Transposed(rows, output, outDim, tokens, outDim, 0) && i < outDim && u < tokens
    ensures RowStart(outDim, u) + i < |output| && output[RowStart(outDim, u) + i] == rows[i][u]
  {
    hide RowStart;
    assert Placed(rows, output, outDim, i, u);
  }
}
