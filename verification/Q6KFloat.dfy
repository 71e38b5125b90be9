/**
  Six-bit rows against real inputs: dequantising, the scalar dot product and the SSE2 one
  with its own decoder, all the same number in exact arithmetic.
  */
module Q6KFloat {
  import opened Wrappers
  import opened I2s
  import opened Q6K
  import Bits

  /** The value of a half-precision scale; none when it is not finite. */
  type F16 = (u8, u8) -> Option<real>

  // ---------------------------------------------------------------------------
  // Real dot products
  // ---------------------------------------------------------------------------

  function Mul(a: real, b: real): real {
    a * b
  }

  function DotR(w: seq<real>, x: seq<real>): real
    requires |w| == |x|
  {
    if w == [] then 0.0 else DotR(w[..|w| - 1], x[..|x| - 1]) + Mul(w[|w| - 1], x[|x| - 1])
  }

  lemma {:induction false} DotRConcat(v: seq<real>, w: seq<real>, x: seq<real>, y: seq<real>)
    requires |v| == |x| && |w| == |y|
    ensures DotR(v + w, x + y) == DotR(v, x) + DotR(w, y)
  {
    if w == [] {
      assert v + w == v && x + y == x;
    } else {
      DotRConcat(v, w[..|w| - 1], x, y[..|y| - 1]);
      assert (v + w)[..|v + w| - 1] == v + w[..|w| - 1];
      assert (x + y)[..|x + y| - 1] == x + y[..|y| - 1];
    }
  }

  lemma DotRSnoc(w: seq<real>, x: seq<real>, k: nat)
    requires |w| == |x| && k < |w|
    ensures DotR(w[..k + 1], x[..k + 1]) == DotR(w[..k], x[..k]) + Mul(w[k], x[k])
  {
    assert w[..k + 1][..k] == w[..k] && x[..k + 1][..k] == x[..k];
  }

  // ---------------------------------------------------------------------------
  // Weights
  // ---------------------------------------------------------------------------

  /** The signed scale of a group of sixteen values. */
  function ScaleAt(block: seq<u8>, half: nat, lane: nat, l: nat): int
    requires |block| == BLOCK_BYTES6 && half < 2 && lane < 4 && l < 32
  {
    SignedByte(block[192 + 8 * half + l / 16 + 2 * lane])
  }

  function WeightAt(block: seq<u8>, d: real, half: nat, lane: nat, l: nat): real
    requires |block| == BLOCK_BYTES6 && half < 2 && lane < 4 && l < 32
  {
    Mul(Mul(d, ScaleAt(block, half, lane, l) as real), (LevelAt(block, half, lane, l) - 32) as real)
  }

  function LaneWeights(block: seq<u8>, d: real, half: nat, lane: nat): (r: seq<real>)
    requires |block| == BLOCK_BYTES6 && half < 2 && lane < 4
    ensures |r| == 32 && forall l :: 0 <= l < 32 ==> r[l] == WeightAt(block, d, half, lane, l)
  {
    seq(32, l requires 0 <= l < 32 => WeightAt(block, d, half, lane, l))
  }

  function HalfWeights(block: seq<u8>, d: real, half: nat): (r: seq<real>)
    requires |block| == BLOCK_BYTES6 && half < 2
    ensures |r| == 128
  {
    LaneWeights(block, d, half, 0) + LaneWeights(block, d, half, 1)
    + LaneWeights(block, d, half, 2) + LaneWeights(block, d, half, 3)
  }

  function BlockWeights(block: seq<u8>, d: real): (r: seq<real>)
    requires |block| == BLOCK_BYTES6
    ensures |r| == VALUES
  {
    HalfWeights(block, d, 0) + HalfWeights(block, d, 1)
  }

  /** Value `i` is its level less 32, by the scale of its group of sixteen, by `d`. */
  lemma BlockWeightAt(block: seq<u8>, d: real, i: nat)
    requires |block| == BLOCK_BYTES6 && i < VALUES
    ensures BlockWeights(block, d)[i]
         == Mul(Mul(d, SignedByte(block[192 + i / 16]) as real), (Levels(block)[i] - 32) as real)
  {
    hide Mul, LevelAt, SignedByte, BlockWeights, Levels;
    var half, lane, l := i / 128, i % 128 / 32, i % 32;
    Places(i);
    LevelsAt(block, half, lane, l);
    GroupOf(half, lane, l);
    WeightsAt(block, d, half, lane, l);
  }

  lemma GroupOf(half: nat, lane: nat, l: nat)
    requires half < 2 && lane < 4 && l < 32
    ensures At(half, lane, l) / 16 == 8 * half + l / 16 + 2 * lane
  {
    assert At(half, lane, l) == 16 * (8 * half + l / 16 + 2 * lane) + l % 16;
  }

  lemma WeightsAt(block: seq<u8>, d: real, half: nat, lane: nat, l: nat)
    requires |block| == BLOCK_BYTES6 && half < 2 && lane < 4 && l < 32
    ensures BlockWeights(block, d)[At(half, lane, l)] == WeightAt(block, d, half, lane, l)
  {
    hide WeightAt;
    assert BlockWeights(block, d)[128 * half + (32 * lane + l)] == HalfWeights(block, d, half)[32 * lane + l];
    assert HalfWeights(block, d, half)[32 * lane + l] == LaneWeights(block, d, half, lane)[l];
  }

  // ---------------------------------------------------------------------------
  // Rows
  // ---------------------------------------------------------------------------

  /** Whole blocks for the number of values. */
  predicate ValidRow(row: seq<u8>, values: nat) {
    values % VALUES == 0 && |row| == values / VALUES * BLOCK_BYTES6
  }

  function DOf(f16: F16, block: seq<u8>): Option<real>
    requires |block| == BLOCK_BYTES6
  {
    f16(block[208], block[209])
  }

  ghost predicate FiniteScales(f16: F16, row: seq<u8>) {
    forall k: nat :: BLOCK_BYTES6 * k + BLOCK_BYTES6 <= |row| ==> DOf(f16, BlockAt(row, k)).Some?
  }

  /** The weights of the first `n` blocks of a row. */
  ghost function RowWeights6(f16: F16, row: seq<u8>, n: nat): (r: seq<real>)
    requires BLOCK_BYTES6 * n <= |row| && FiniteScales(f16, row)
    ensures |r| == VALUES * n
  {
    if n == 0 then [] else
    RowWeights6(f16, row, n - 1) + BlockWeights(BlockAt(row, n - 1), DOf(f16, BlockAt(row, n - 1)).value)
  }

  /** One more block of weights against one more block of input. */
  lemma RowDotStep(f16: F16, row: seq<u8>, x: seq<real>, k: nat)
    requires BLOCK_BYTES6 * (k + 1) <= |row| && FiniteScales(f16, row) && VALUES * (k + 1) <= |x|
    ensures DotR(RowWeights6(f16, row, k + 1), x[..VALUES * (k + 1)])
         == DotR(RowWeights6(f16, row, k), x[..VALUES * k])
          + DotR(BlockWeights(BlockAt(row, k), DOf(f16, BlockAt(row, k)).value), x[VALUES * k..VALUES * k + VALUES])
  {
    hide DotR, BlockWeights, FiniteScales;
    ScaleIsFinite(f16, row, k);
    var w, x' := BlockWeights(BlockAt(row, k), DOf(f16, BlockAt(row, k)).value), x[VALUES * k..VALUES * k + VALUES];
    assert x[..VALUES * (k + 1)] == x[..VALUES * k] + x';
    DotRConcat(RowWeights6(f16, row, k), w, x[..VALUES * k], x');
  }

  lemma HalvesOfBlock(block: seq<u8>, d: real, x: seq<real>)
    requires |block| == BLOCK_BYTES6 && |x| == VALUES
    ensures DotR(BlockWeights(block, d), x)
         == DotR(HalfWeights(block, d, 0), x[..128]) + DotR(HalfWeights(block, d, 1), x[128..])
  {
    hide DotR, HalfWeights;
    assert x == x[..128] + x[128..];
    DotRConcat(HalfWeights(block, d, 0), HalfWeights(block, d, 1), x[..128], x[128..]);
  }

  lemma LanesOfHalf(block: seq<u8>, d: real, half: nat, x: seq<real>)
    requires |block| == BLOCK_BYTES6 && half < 2 && |x| == 128
    ensures DotR(HalfWeights(block, d, half), x)
         == DotR(LaneWeights(block, d, half, 0), x[..32]) + DotR(LaneWeights(block, d, half, 1), x[32..64])
          + DotR(LaneWeights(block, d, half, 2), x[64..96]) + DotR(LaneWeights(block, d, half, 3), x[96..])
  {
    hide DotR, LaneWeights;
    var w0, w1, w2, w3 := LaneWeights(block, d, half, 0), LaneWeights(block, d, half, 1),
                          LaneWeights(block, d, half, 2), LaneWeights(block, d, half, 3);
    assert x == x[..32] + x[32..64] + x[64..96] + x[96..];
    DotRConcat(w0, w1, x[..32], x[32..64]);
    DotRConcat(w0 + w1, w2, x[..32] + x[32..64], x[64..96]);
    DotRConcat(w0 + w1 + w2, w3, x[..32] + x[32..64] + x[64..96], x[96..]);
  }

  // ---------------------------------------------------------------------------
  // Scalar
  // ---------------------------------------------------------------------------

  /** The four lanes' products over the first `n` bytes of a half. */
  function LaneDots(block: seq<u8>, d: real, half: nat, x: seq<real>, n: nat): real
    requires |block| == BLOCK_BYTES6 && half < 2 && |x| == 128 && n <= 32
  {
    DotR(LaneWeights(block, d, half, 0)[..n], x[..32][..n]) + DotR(LaneWeights(block, d, half, 1)[..n], x[32..64][..n])
    + DotR(LaneWeights(block, d, half, 2)[..n], x[64..96][..n]) + DotR(LaneWeights(block, d, half, 3)[..n], x[96..][..n])
  }

  lemma LaneDotsStep(block: seq<u8>, d: real, half: nat, x: seq<real>, n: nat)
    requires |block| == BLOCK_BYTES6 && half < 2 && |x| == 128 && n < 32
    ensures LaneDots(block, d, half, x, 0) == 0.0
    ensures LaneDots(block, d, half, x, n + 1) == LaneDots(block, d, half, x, n)
         + Mul(WeightAt(block, d, half, 0, n), x[n]) + Mul(WeightAt(block, d, half, 1, n), x[n + 32])
         + Mul(WeightAt(block, d, half, 2, n), x[n + 64]) + Mul(WeightAt(block, d, half, 3, n), x[n + 96])
  {
    hide WeightAt, Mul;
    DotRSnoc(LaneWeights(block, d, half, 0), x[..32], n);
    DotRSnoc(LaneWeights(block, d, half, 1), x[32..64], n);
    DotRSnoc(LaneWeights(block, d, half, 2), x[64..96], n);
    DotRSnoc(LaneWeights(block, d, half, 3), x[96..], n);
  }

  lemma LaneDotsAll(block: seq<u8>, d: real, half: nat, x: seq<real>)
    requires |block| == BLOCK_BYTES6 && half < 2 && |x| == 128
    ensures LaneDots(block, d, half, x, 32) == DotR(HalfWeights(block, d, half), x)
  {
    hide DotR, LaneWeights, HalfWeights;
    LanesOfHalf(block, d, half, x);
    forall lane: nat | lane < 4 ensures LaneWeights(block, d, half, lane)[..32] == LaneWeights(block, d, half, lane) {
    }
    assert x[..32][..32] == x[..32] && x[32..64][..32] == x[32..64] && x[64..96][..32] == x[64..96] && x[96..][..32] == x[96..];
  }

  /** The four weights at `l`, decoded as each is visited: level, scale of its sixteen, super scale. */
  method DecodeColumn(block: seq<u8>, d: real, half: nat, l: nat) returns (w1: real, w2: real, w3: real, w4: real)
    requires |block| == BLOCK_BYTES6 && half < 2 && l < 32
    ensures w1 == WeightAt(block, d, half, 0, l) && w2 == WeightAt(block, d, half, 1, l)
    ensures w3 == WeightAt(block, d, half, 2, l) && w4 == WeightAt(block, d, half, 3, l)
  {
    hide LevelAt, SignedByte, Mul, Bits.And, Bits.Or, Bits.Shl, Bits.Shr;
    var low, low', high := block[64 * half + l], block[64 * half + l + 32], block[128 + 32 * half + l];
    var scales, scale := block[192 + 8 * half..208], l / 16;
    var q1 := Bits.Or(Bits.And(low, 15), Bits.Shl(Bits.And(high, 3), 4)) - 32;
    var q2 := Bits.Or(Bits.And(low', 15), Bits.Shl(Bits.And(Bits.Shr(high, 2), 3), 4)) - 32;
    var q3 := Bits.Or(Bits.Shr(low, 4), Bits.Shl(Bits.And(Bits.Shr(high, 4), 3), 4)) - 32;
    var q4 := Bits.Or(Bits.Shr(low', 4), Bits.Shl(Bits.And(Bits.Shr(high, 6), 3), 4)) - 32;
    DecodedLevels(block, half, l);
    w1 := Mul(Mul(d, SignedByte(scales[scale]) as real), q1 as real);
    w2 := Mul(Mul(d, SignedByte(scales[scale + 2]) as real), q2 as real);
    w3 := Mul(Mul(d, SignedByte(scales[scale + 4]) as real), q3 as real);
    w4 := Mul(Mul(d, SignedByte(scales[scale + 6]) as real), q4 as real);
  }

  /** Visiting a half's weights in decoding order, adding each product to the sum. */
  method ScalarHalf(block: seq<u8>, d: real, half: nat, x: seq<real>, start: real) returns (sum: real)
    requires |block| == BLOCK_BYTES6 && half < 2 && |x| == 128
    ensures sum == start + DotR(HalfWeights(block, d, half), x)
  {
    hide WeightAt, LaneDots, DotR, HalfWeights, Mul;
    sum := start;
    var l := 0;
    LaneDotsStep(block, d, half, x, 0);
    while l < 32
      invariant 0 <= l <= 32
      invariant sum == start + LaneDots(block, d, half, x, l)
    {
      LaneDotsStep(block, d, half, x, l);
      var w1, w2, w3, w4 := DecodeColumn(block, d, half, l);
      sum := sum + Mul(w1, x[l]);
      sum := sum + Mul(w2, x[l + 32]);
      sum := sum + Mul(w3, x[l + 64]);
      sum := sum + Mul(w4, x[l + 96]);
      l := l + 1;
    }
    LaneDotsAll(block, d, half, x);
  }

  method DotRowScalar(f16: F16, row: seq<u8>, x: seq<real>) returns (sum: real)
    requires ValidRow(row, |x|) && FiniteScales(f16, row)
    ensures sum == DotR(RowWeights6(f16, row, |x| / VALUES), x)
  {
    hide DotR, HalfWeights, BlockWeights, FiniteScales;
    sum := 0.0;
    EmptyRow6(f16, row, x);
    var k := 0;
    while k < |x| / VALUES
      invariant 0 <= k <= |x| / VALUES
      invariant sum == DotR(RowWeights6(f16, row, k), x[..VALUES * k])
    {
      var block := BlockAt(row, k);
      ScaleIsFinite(f16, row, k);
      var d, xs := DOf(f16, block).value, x[VALUES * k..VALUES * k + VALUES];
      var first := ScalarHalf(block, d, 0, xs[..128], sum);
      HalvesOfBlock(block, d, xs);
      RowDotStep(f16, row, x, k);
      sum := ScalarHalf(block, d, 1, xs[128..], first);
      k := k + 1;
    }
    assert x[..VALUES * k] == x;
  }

  lemma EmptyRow6(f16: F16, row: seq<u8>, x: seq<real>)
    requires FiniteScales(f16, row)
    ensures DotR(RowWeights6(f16, row, 0), x[..VALUES * 0]) == 0.0
  {
  }

  lemma ScaleIsFinite(f16: F16, row: seq<u8>, k: nat)
    requires BLOCK_BYTES6 * k + BLOCK_BYTES6 <= |row| && FiniteScales(f16, row)
    ensures DOf(f16, BlockAt(row, k)).Some?
  {
  }

  // ---------------------------------------------------------------------------
  // SSE2
  // ---------------------------------------------------------------------------

  type Lanes = v: seq<real> | |v| == 4 witness [0.0, 0.0, 0.0, 0.0]

  function Total(v: Lanes): real {
    v[0] + v[1] + v[2] + v[3]
  }

  function AddLanes(a: Lanes, b: Lanes): Lanes {
    [a[0] + b[0], a[1] + b[1], a[2] + b[2], a[3] + b[3]]
  }

  /** Reverse, add, take the upper pair, add. */
  function Hsum(v: Lanes): (s: real)
    ensures s == Total(v)
  {
    var pairs := [v[0] + v[3], v[1] + v[2], v[2] + v[1], v[3] + v[0]];
    pairs[0] + pairs[2]
  }

  /** Four quants by their scale by four inputs, added to an accumulator. */
  function Accumulated6(acc: Lanes, x: seq<real>, quants: seq<int>, scale: real): Lanes
    requires |x| == |quants| == 4
  {
    AddLanes(acc, [Mul(Mul(quants[0] as real, scale), x[0]), Mul(Mul(quants[1] as real, scale), x[1]),
                   Mul(Mul(quants[2] as real, scale), x[2]), Mul(Mul(quants[3] as real, scale), x[3])])
  }

  /** The four bytes at `l` decoded for one lane, by the vector kernel's own shifts and masks. */
  method DecodeFour(block: seq<u8>, half: nat, l: nat) returns (q0: seq<int>, q1: seq<int>, q2: seq<int>, q3: seq<int>)
    requires |block| == BLOCK_BYTES6 && half < 2 && l + 4 <= 32
    ensures |q0| == |q1| == |q2| == |q3| == 4
    ensures forall i :: 0 <= i < 4 ==> q0[i] == LevelAt(block, half, 0, l + i) - 32
    ensures forall i :: 0 <= i < 4 ==> q1[i] == LevelAt(block, half, 1, l + i) - 32
    ensures forall i :: 0 <= i < 4 ==> q2[i] == LevelAt(block, half, 2, l + i) - 32
    ensures forall i :: 0 <= i < 4 ==> q3[i] == LevelAt(block, half, 3, l + i) - 32
  {
    hide LevelAt, Bits.And, Bits.Or, Bits.Shl, Bits.Shr;
    q0, q1, q2, q3 := [], [], [], [];
    var lane := 0;
    while lane < 4
      invariant 0 <= lane <= 4 && |q0| == |q1| == |q2| == |q3| == lane
      invariant forall i :: 0 <= i < lane ==> q0[i] == LevelAt(block, half, 0, l + i) - 32
      invariant forall i :: 0 <= i < lane ==> q1[i] == LevelAt(block, half, 1, l + i) - 32
      invariant forall i :: 0 <= i < lane ==> q2[i] == LevelAt(block, half, 2, l + i) - 32
      invariant forall i :: 0 <= i < lane ==> q3[i] == LevelAt(block, half, 3, l + i) - 32
    {
      var index := l + lane;
      var low13, low24, high := block[64 * half + index], block[64 * half + index + 32], block[128 + 32 * half + index];
      DecodedLevels(block, half, index);
      q0 := q0 + [Bits.Or(Bits.And(low13, 15), Bits.Shl(Bits.And(high, 3), 4)) - 32];
      q1 := q1 + [Bits.Or(Bits.And(low24, 15), Bits.Shl(Bits.And(Bits.Shr(high, 2), 3), 4)) - 32];
      q2 := q2 + [Bits.Or(Bits.Shr(low13, 4), Bits.Shl(Bits.And(Bits.Shr(high, 4), 3), 4)) - 32];
      q3 := q3 + [Bits.Or(Bits.Shr(low24, 4), Bits.Shl(Bits.And(Bits.Shr(high, 6), 3), 4)) - 32];
      lane := lane + 1;
    }
  }

  lemma Commuted(d: real, s: real, q: real)
    ensures Mul(q, Mul(d, s)) == Mul(Mul(d, s), q)
  {
  }

  /** An accumulator's total grows by four more products of its lane. */
  lemma FourMore(block: seq<u8>, d: real, half: nat, lane: nat, x: seq<real>, l: nat, acc: Lanes, quants: seq<int>, scale: real)
    requires |block| == BLOCK_BYTES6 && half < 2 && lane < 4 && |x| == 32 && l + 4 <= 32 && l % 4 == 0
    requires |quants| == 4 && forall i :: 0 <= i < 4 ==> quants[i] == LevelAt(block, half, lane, l + i) - 32
    requires scale == Mul(d, ScaleAt(block, half, lane, l) as real)
    ensures Total(Accumulated6(acc, x[l..l + 4], quants, scale))
         == Total(acc) - DotR(LaneWeights(block, d, half, lane)[..l], x[..l])
          + DotR(LaneWeights(block, d, half, lane)[..l + 4], x[..l + 4])
  {
    hide LevelAt, DotR, Mul, LaneWeights;
    var w := LaneWeights(block, d, half, lane);
    DotRSnoc(w, x, l);
    DotRSnoc(w, x, l + 1);
    DotRSnoc(w, x, l + 2);
    DotRSnoc(w, x, l + 3);
    forall i | 0 <= i < 4 ensures Mul(Mul(quants[i] as real, scale), x[l + i]) == Mul(w[l + i], x[l + i]) {
      assert l / 16 == (l + i) / 16;
      Commuted(d, ScaleAt(block, half, lane, l) as real, quants[i] as real);
    }
  }

  /** The four accumulators after `l` bytes of a half, from what they were at its start. */
  ghost predicate AfterBytes(block: seq<u8>, d: real, half: nat, x: seq<real>, l: nat,
                             start: seq<Lanes>, now: seq<Lanes>)
    requires |block| == BLOCK_BYTES6 && half < 2 && |x| == 128 && l <= 32 && |start| == |now| == 4
  {
    && Total(now[0]) == Total(start[0]) + DotR(LaneWeights(block, d, half, 0)[..l], x[..32][..l])
    && Total(now[1]) == Total(start[1]) + DotR(LaneWeights(block, d, half, 1)[..l], x[32..64][..l])
    && Total(now[2]) == Total(start[2]) + DotR(LaneWeights(block, d, half, 2)[..l], x[64..96][..l])
    && Total(now[3]) == Total(start[3]) + DotR(LaneWeights(block, d, half, 3)[..l], x[96..][..l])
  }

  function Grand(acc: seq<Lanes>): real
    requires |acc| == 4
  {
    Total(acc[0]) + Total(acc[1]) + Total(acc[2]) + Total(acc[3])
  }

  method Sse2Chunk(block: seq<u8>, d: real, half: nat, x: seq<real>, l: nat, ghost start: seq<Lanes>, acc: seq<Lanes>)
    returns (acc': seq<Lanes>)
    requires |block| == BLOCK_BYTES6 && half < 2 && |x| == 128 && l + 4 <= 32 && l % 4 == 0
    requires |start| == |acc| == 4 && AfterBytes(block, d, half, x, l, start, acc)
    ensures |acc'| == 4 && AfterBytes(block, d, half, x, l + 4, start, acc')
  {
    hide LevelAt, DotR, Mul, LaneWeights, Total, Accumulated6, ScaleAt;
    var q0, q1, q2, q3 := DecodeFour(block, half, l);
    var s0 := Mul(d, ScaleAt(block, half, 0, l) as real);
    var s1 := Mul(d, ScaleAt(block, half, 1, l) as real);
    var s2 := Mul(d, ScaleAt(block, half, 2, l) as real);
    var s3 := Mul(d, ScaleAt(block, half, 3, l) as real);
    FourMore(block, d, half, 0, x[..32], l, acc[0], q0, s0);
    FourMore(block, d, half, 1, x[32..64], l, acc[1], q1, s1);
    FourMore(block, d, half, 2, x[64..96], l, acc[2], q2, s2);
    FourMore(block, d, half, 3, x[96..], l, acc[3], q3, s3);
    acc' := [Accumulated6(acc[0], x[..32][l..l + 4], q0, s0), Accumulated6(acc[1], x[32..64][l..l + 4], q1, s1),
             Accumulated6(acc[2], x[64..96][l..l + 4], q2, s2), Accumulated6(acc[3], x[96..][l..l + 4], q3, s3)];
  }

  method Sse2Half(block: seq<u8>, d: real, half: nat, x: seq<real>, acc: seq<Lanes>) returns (acc': seq<Lanes>)
    requires |block| == BLOCK_BYTES6 && half < 2 && |x| == 128 && |acc| == 4
    ensures |acc'| == 4 && Grand(acc') == Grand(acc) + DotR(HalfWeights(block, d, half), x)
  {
    hide AfterBytes, DotR, HalfWeights, Total, Grand;
    acc' := acc;
    NoBytes(block, d, half, x, acc);
    var band := 0;
    while band < 2
      invariant 0 <= band <= 2 && |acc'| == 4
      invariant AfterBytes(block, d, half, x, 16 * band, acc, acc')
    {
      var chunk := 0;
      while chunk < 4
        invariant 0 <= chunk <= 4 && |acc'| == 4
        invariant AfterBytes(block, d, half, x, 16 * band + 4 * chunk, acc, acc')
      {
        acc' := Sse2Chunk(block, d, half, x, 16 * band + 4 * chunk, acc, acc');
        chunk := chunk + 1;
      }
      band := band + 1;
    }
    AllBytes(block, d, half, x, acc, acc');
  }

  lemma NoBytes(block: seq<u8>, d: real, half: nat, x: seq<real>, acc: seq<Lanes>)
    requires |block| == BLOCK_BYTES6 && half < 2 && |x| == 128 && |acc| == 4
    ensures AfterBytes(block, d, half, x, 0, acc, acc)
  {
  }

  lemma AllBytes(block: seq<u8>, d: real, half: nat, x: seq<real>, acc: seq<Lanes>, acc': seq<Lanes>)
    requires |block| == BLOCK_BYTES6 && half < 2 && |x| == 128 && |acc| == |acc'| == 4
    requires AfterBytes(block, d, half, x, 32, acc, acc')
    ensures Grand(acc') == Grand(acc) + DotR(HalfWeights(block, d, half), x)
  {
    hide DotR, HalfWeights, Total, LaneWeights;
    LaneDotsAll(block, d, half, x);
  }

  method DotRowSse2(f16: F16, row: seq<u8>, x: seq<real>) returns (sum: real)
    requires ValidRow(row, |x|) && FiniteScales(f16, row)
    ensures sum == DotR(RowWeights6(f16, row, |x| / VALUES), x)
  {
    hide DotR, HalfWeights, BlockWeights, FiniteScales, Grand;
    var zero: Lanes := [0.0, 0.0, 0.0, 0.0];
    var acc := [zero, zero, zero, zero];
    EmptyRow6(f16, row, x);
    ZeroGrand(acc);
    var k := 0;
    while k < |x| / VALUES
      invariant 0 <= k <= |x| / VALUES && |acc| == 4
      invariant Grand(acc) == DotR(RowWeights6(f16, row, k), x[..VALUES * k])
    {
      var block := BlockAt(row, k);
      ScaleIsFinite(f16, row, k);
      var d, xs := DOf(f16, block).value, x[VALUES * k..VALUES * k + VALUES];
      HalvesOfBlock(block, d, xs);
      RowDotStep(f16, row, x, k);
      acc := Sse2Half(block, d, 0, xs[..128], acc);
      acc := Sse2Half(block, d, 1, xs[128..], acc);
      k := k + 1;
    }
    assert x[..VALUES * k] == x;
    GrandOfSums(acc);
    sum := Hsum(AddLanes(AddLanes(acc[0], acc[1]), AddLanes(acc[2], acc[3])));
  }

  lemma ZeroGrand(acc: seq<Lanes>)
    requires acc == [[0.0, 0.0, 0.0, 0.0], [0.0, 0.0, 0.0, 0.0], [0.0, 0.0, 0.0, 0.0], [0.0, 0.0, 0.0, 0.0]]
    ensures Grand(acc) == 0.0
  {
  }

  lemma GrandOfSums(acc: seq<Lanes>)
    requires |acc| == 4
    ensures Total(AddLanes(AddLanes(acc[0], acc[1]), AddLanes(acc[2], acc[3]))) == Grand(acc)
  {
  }

  /** The checked entry point: whichever kernel the host offers, the same number. */
  method DotRow(f16: F16, row: seq<u8>, x: seq<real>, sse2: bool) returns (r: Option<real>)
    ensures r.Some? == (ValidRow(row, |x|) && FiniteScales(f16, row))
    ensures r.Some? ==> r.value == DotR(RowWeights6(f16, row, |x| / VALUES), x)
  {
    if !ValidRow(row, |x|) { return None; }
    var finite := ValidateDScales(f16, row);
    if !finite { return None; }
    var sum;
    if sse2 { sum := DotRowSse2(f16, row, x); } else { sum := DotRowScalar(f16, row, x); }
    return Some(sum);
  }

  method ValidateDScales(f16: F16, row: seq<u8>) returns (ok: bool)
    ensures ok == FiniteScales(f16, row)
  {
    var k := 0;
    while BLOCK_BYTES6 * k + BLOCK_BYTES6 <= |row|
      invariant 0 <= k && BLOCK_BYTES6 * k <= |row|
      invariant forall i: nat :: i < k ==> DOf(f16, BlockAt(row, i)).Some?
      decreases |row| - BLOCK_BYTES6 * k
    {
      if DOf(f16, BlockAt(row, k)).None? { return false; }
      k := k + 1;
    }
    ok := true;
  }

  /** Dequantising writes exactly those weights. */
  method DequantizeRow(f16: F16, row: seq<u8>, out: array<real>) returns (ok: bool)
    modifies out
    ensures ok == (ValidRow(row, out.Length) && FiniteScales(f16, row))
    ensures !ok ==> out[..] == old(out[..])
    ensures ok ==> out[..] == RowWeights6(f16, row, out.Length / VALUES)
  {
    hide BlockWeights;
    if !ValidRow(row, out.Length) { return false; }
    ok := ValidateDScales(f16, row);
    if !ok { return; }
    var k := 0;
    while k < out.Length / VALUES
      invariant 0 <= k <= out.Length / VALUES
      invariant out[..VALUES * k] == RowWeights6(f16, row, k)
    {
      var block := BlockAt(row, k);
      ghost var done := out[..VALUES * k];
      DequantizeBlock(block, DOf(f16, block).value, VALUES * k, out);
      assert out[..VALUES * (k + 1)] == done + out[VALUES * k..VALUES * k + VALUES];
      k := k + 1;
    }
    assert out[..VALUES * k] == out[..];
  }

  method DequantizeBlock(block: seq<u8>, d: real, base: nat, out: array<real>)
    requires |block| == BLOCK_BYTES6 && base + VALUES <= out.Length
    modifies out
    ensures out[..base] == old(out[..base])
    ensures out[base..base + VALUES] == BlockWeights(block, d)
  {
    hide HalfWeights;
    DequantizeHalf(block, d, 0, base, out);
    ghost var first := out[base..base + 128];
    DequantizeHalf(block, d, 1, base + 128, out);
    assert out[..base + 128][..base] == out[..base];
    assert out[..base + 128][base..] == first;
    assert out[base..base + VALUES] == out[base..base + 128] + out[base + 128..base + VALUES];
  }

  method DequantizeHalf(block: seq<u8>, d: real, half: nat, base: nat, out: array<real>)
    requires |block| == BLOCK_BYTES6 && half < 2 && base + 128 <= out.Length
    modifies out
    ensures out[..base] == old(out[..base])
    ensures out[base..base + 128] == HalfWeights(block, d, half)
  {
    hide WeightAt, HalfWeights, FourWeights;
    var l := 0;
    NoWeights(block, d, half, out[base..base + 128]);
    while l < 32
      invariant 0 <= l <= 32
      invariant out[..base] == old(out[..base])
      invariant FourWeights(block, d, half, out[base..base + 128], l)
    {
      ghost var before := out[base..base + 128];
      var w1, w2, w3, w4 := DecodeColumn(block, d, half, l);
      out[base + l] := w1;
      out[base + l + 32] := w2;
      out[base + l + 64] := w3;
      out[base + l + 96] := w4;
      MoreWeights(block, d, half, before, out[base..base + 128], l);
      l := l + 1;
    }
    FourWeightsMakeHalf(block, d, half, out[base..base + 128]);
  }

  predicate FourWeights(block: seq<u8>, d: real, half: nat, values: seq<real>, n: nat)
    requires |block| == BLOCK_BYTES6 && half < 2 && |values| == 128 && n <= 32
  {
    forall l :: 0 <= l < n ==>
      && values[l] == WeightAt(block, d, half, 0, l) && values[l + 32] == WeightAt(block, d, half, 1, l)
      && values[l + 64] == WeightAt(block, d, half, 2, l) && values[l + 96] == WeightAt(block, d, half, 3, l)
  }

  lemma NoWeights(block: seq<u8>, d: real, half: nat, values: seq<real>)
    requires |block| == BLOCK_BYTES6 && half < 2 && |values| == 128
    ensures FourWeights(block, d, half, values, 0)
  {
  }

  lemma MoreWeights(block: seq<u8>, d: real, half: nat, before: seq<real>, after: seq<real>, l: nat)
    requires |block| == BLOCK_BYTES6 && half < 2 && |before| == 128 && l < 32
    requires FourWeights(block, d, half, before, l)
    requires after == before[l := WeightAt(block, d, half, 0, l)][l + 32 := WeightAt(block, d, half, 1, l)]
                            [l + 64 := WeightAt(block, d, half, 2, l)][l + 96 := WeightAt(block, d, half, 3, l)]
    ensures FourWeights(block, d, half, after, l + 1)
  {
    hide WeightAt;
  }

  lemma FourWeightsMakeHalf(block: seq<u8>, d: real, half: nat, values: seq<real>)
    requires |block| == BLOCK_BYTES6 && half < 2 && |values| == 128 && FourWeights(block, d, half, values, 32)
    ensures values == HalfWeights(block, d, half)
  {
    hide WeightAt;
    assert values[..32] == LaneWeights(block, d, half, 0);
    assert values[32..64] == LaneWeights(block, d, half, 1);
    assert values[64..96] == LaneWeights(block, d, half, 2);
    assert values[96..] == LaneWeights(block, d, half, 3);
    assert values == values[..32] + values[32..64] + values[64..96] + values[96..];
  }
}
