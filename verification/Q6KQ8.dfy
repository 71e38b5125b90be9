/**
  Six-bit rows against byte activations: the scalar kernel and the AVX2 one compute the same
  integer for every block, the sum over the dequantised weights, and so the same result.
  */
module Q6KQ8 {
  import opened I2s
  import opened I2sInt
  import opened KLanes
  import opened Q6K
  import opened Q8K

  // ---------------------------------------------------------------------------
  // What a block comes to
  // ---------------------------------------------------------------------------

  function ScaleOf(block: seq<u8>, g: nat): (s: int)
    requires |block| == BLOCK_BYTES6 && g < 16
    ensures -128 <= s < 128
  {
    SignedByte(block[192 + g])
  }

  function Group(v: seq<int>, g: nat): (r: seq<int>)
    requires |v| == VALUES && g < 16
    ensures |r| == 16
  {
    v[16 * g..16 * g + 16]
  }

  /** Level products of one group. */
  function GroupDot(block: seq<u8>, a: Q8KBlock, g: nat): int
    requires |block| == BLOCK_BYTES6 && IsQ8K(a) && g < 16
  {
    DotInt(Group(Levels(block), g), Group(a.qs, g))
  }

  function GroupTerm(block: seq<u8>, a: Q8KBlock, g: nat): int
    requires |block| == BLOCK_BYTES6 && IsQ8K(a) && g < 16
  {
    ScaleOf(block, g) * (GroupDot(block, a, g) - 32 * a.bsums[g])
  }

  /** The first `n` groups. */
  function BlockInt(block: seq<u8>, a: Q8KBlock, n: nat): int
    requires |block| == BLOCK_BYTES6 && IsQ8K(a) && n <= 16
  {
    if n == 0 then 0 else BlockInt(block, a, n - 1) + GroupTerm(block, a, n - 1)
  }

  // ---------------------------------------------------------------------------
  // It is the sum over dequantised weights
  // ---------------------------------------------------------------------------

  /** Levels less 32. */
  function Centered(v: seq<int>): (r: seq<int>)
    ensures |r| == |v|
  {
    seq(|v|, i requires 0 <= i < |v| => v[i] - 32)
  }

  /** Value `i`'s weight without the block's scale: group scale by centered level. */
  function IntWeights(block: seq<u8>, n: nat): (r: seq<int>)
    requires |block| == BLOCK_BYTES6 && n <= 16
    ensures |r| == 16 * n
  {
    if n == 0 then [] else
    IntWeights(block, n - 1) + Products(Centered(Group(Levels(block), n - 1)), Ones(16, ScaleOf(block, n - 1)))
  }

  lemma {:induction false} CenteredDot(v: seq<int>, q: seq<int>)
    requires |v| == |q|
    ensures DotInt(Centered(v), q) == DotInt(v, q) - 32 * Sum(q)
  {
    if v != [] {
      var n := |v| - 1;
      CenteredDot(v[..n], q[..n]);
      assert Products(Centered(v), q)[..n] == Products(Centered(v[..n]), q[..n]);
      assert Products(v, q)[..n] == Products(v[..n], q[..n]);
      assert (v[n] - 32) * q[n] == v[n] * q[n] - 32 * q[n];
    }
  }

  lemma {:induction false} ScaledDot(v: seq<int>, q: seq<int>, s: int)
    requires |v| == |q|
    ensures DotInt(Products(v, Ones(|v|, s)), q) == s * DotInt(v, q)
  {
    if v != [] {
      var n := |v| - 1;
      ScaledDot(v[..n], q[..n], s);
      assert Products(v, Ones(|v|, s))[..n] == Products(v[..n], Ones(n, s));
      assert Products(Products(v, Ones(|v|, s)), q)[..n] == Products(Products(v[..n], Ones(n, s)), q[..n]);
      assert Products(v, q)[..n] == Products(v[..n], q[..n]);
      ScaledTerm(v[n], q[n], s, DotInt(v[..n], q[..n]));
    }
  }

  lemma ScaledTerm(v: int, q: int, s: int, rest: int)
    ensures s * (rest + v * q) == s * rest + (v * s) * q
  {
    assert s * (v * q) == (v * s) * q;
  }

  /** Because the group sums are true, a block's integer is its weights' product with the quants. */
  lemma {:induction false} BlockIntIsDot(block: seq<u8>, a: Q8KBlock, n: nat)
    requires |block| == BLOCK_BYTES6 && IsQ8K(a) && n <= 16
    ensures BlockInt(block, a, n) == DotInt(IntWeights(block, n), a.qs[..16 * n])
  {
    hide Levels, DotInt, ScaleOf;
    if n == 0 {
      NothingDot();
      assert a.qs[..0] == [];
    } else {
      BlockIntIsDot(block, a, n - 1);
      var g := Group(Levels(block), n - 1);
      var q := Group(a.qs, n - 1);
      CenteredDot(g, q);
      assert a.bsums[n - 1] == Sum(q);
      ScaledDot(Centered(g), q, ScaleOf(block, n - 1));
      assert a.qs[..16 * n] == a.qs[..16 * (n - 1)] + q;
      DotIntConcat(IntWeights(block, n - 1), Products(Centered(g), Ones(16, ScaleOf(block, n - 1))), a.qs[..16 * (n - 1)], q);
    }
  }

  lemma NothingDot()
    ensures DotInt([], []) == 0
  {
  }

  /** The weight of value `i`, written out. */
  lemma {:induction false} IntWeightAt(block: seq<u8>, n: nat, i: nat)
    requires |block| == BLOCK_BYTES6 && n <= 16 && i < 16 * n
    ensures IntWeights(block, n)[i] == ScaleOf(block, i / 16) * (Levels(block)[i] - 32)
  {
    hide Levels, ScaleOf;
    if i < 16 * (n - 1) {
      IntWeightAt(block, n - 1, i);
    } else {
      assert i / 16 == n - 1;
      var g := Group(Levels(block), n - 1);
      var w := Products(Centered(g), Ones(16, ScaleOf(block, n - 1)));
      assert IntWeights(block, n)[i] == w[i - 16 * (n - 1)];
      assert w[i - 16 * (n - 1)] == (g[i - 16 * (n - 1)] - 32) * ScaleOf(block, n - 1);
    }
  }

  // ---------------------------------------------------------------------------
  // How large it can get
  // ---------------------------------------------------------------------------

  lemma GroupDotBound(block: seq<u8>, a: Q8KBlock, g: nat)
    requires |block| == BLOCK_BYTES6 && IsQ8K(a) && g < 16
    ensures 0 <= 16 * (63 * 127) && -(16 * (63 * 127)) <= GroupDot(block, a, g) <= 16 * (63 * 127)
    ensures -2032 <= a.bsums[g] <= 2032
    ensures -65024 <= GroupDot(block, a, g) - 32 * a.bsums[g] <= 65024
  {
    hide Levels, Sum;
    LevelsAreLevels(block);
    var v, q := Group(Levels(block), g), Group(a.qs, g);
    ProductsBounded(v, q, 63, 127);
    SumBound(Products(v, q), 63 * 127);
    SumBound(q, 127);
    CenteredDot(v, q);
    ProductsBounded(Centered(v), q, 32, 127);
    SumBound(Products(Centered(v), q), 32 * 127);
  }

  lemma GroupTermBound(block: seq<u8>, a: Q8KBlock, g: nat)
    requires |block| == BLOCK_BYTES6 && IsQ8K(a) && g < 16
    ensures -8323072 <= GroupTerm(block, a, g) <= 8323072
    ensures -260096 <= ScaleOf(block, g) * a.bsums[g] <= 260096
  {
    hide ScaleOf, GroupDot;
    GroupDotBound(block, a, g);
    ProductBound(ScaleOf(block, g), GroupDot(block, a, g) - 32 * a.bsums[g], 128, 65024);
    ProductBound(ScaleOf(block, g), a.bsums[g], 128, 2032);
  }

  lemma {:induction false} BlockIntBound(block: seq<u8>, a: Q8KBlock, n: nat)
    requires |block| == BLOCK_BYTES6 && IsQ8K(a) && n <= 16
    ensures -8323072 * n <= BlockInt(block, a, n) <= 8323072 * n
  {
    hide GroupTerm;
    if n > 0 {
      BlockIntBound(block, a, n - 1);
      GroupTermBound(block, a, n - 1);
    }
  }

  // ---------------------------------------------------------------------------
  // Scalar
  // ---------------------------------------------------------------------------

  method ScalarGroup(levels: seq<int>, q: seq<int>) returns (dot: int)
    requires |levels| == |q| == 16 && InRange(levels, 63) && IsAct(q)
    ensures dot == DotInt(levels, q)
  {
    hide Sum, Wrap32;
    dot := 0;
    ghost var products := Products(levels, q);
    ProductsBounded(levels, q, 63, 127);
    NoSum(products[..0]);
    var index := 0;
    while index < 16
      invariant 0 <= index <= 16
      invariant dot == Sum(products[..index]) && -(8001 * index) <= dot <= 8001 * index
    {
      assert products[..index + 1] == products[..index] + [products[index]];
      SumSnoc(products[..index], products[index]);
      WrapIsIdentity(dot + products[index]);
      dot := Wrap32(dot + levels[index] * q[index]);
      index := index + 1;
    }
    assert products[..16] == products;
  }

  /**
    No 32-bit operation of the scalar block overflows: not the partial sums of a group's
    products, not the group sum times 32, not their difference, its scaling, or the running sum.
    */
  lemma ScalarStepsFit(block: seq<u8>, a: Q8KBlock, g: nat, k: nat)
    requires |block| == BLOCK_BYTES6 && IsQ8K(a) && g < 16 && k <= 16
    ensures var v, q := Group(Levels(block), g), Group(a.qs, g);
      Fits32(DotInt(v[..k], q[..k])) && (k < 16 ==> Fits32(v[k] * q[k]))
    ensures Fits32(32 * a.bsums[g]) && Fits32(GroupDot(block, a, g) - 32 * a.bsums[g])
    ensures Fits32(GroupTerm(block, a, g)) && Fits32(BlockInt(block, a, g + 1))
  {
    hide Levels, Sum, ScaleOf, BlockInt;
    GroupDotBound(block, a, g);
    GroupTermBound(block, a, g);
    BlockIntBound(block, a, g + 1);
    LevelsAreLevels(block);
    var v, q := Group(Levels(block), g), Group(a.qs, g);
    ProductsBounded(v, q, 63, 127);
    assert Products(v[..k], q[..k]) == Products(v, q)[..k];
    SumBound(Products(v[..k], q[..k]), 8001);
    if k < 16 { assert Products(v, q)[k] == v[k] * q[k]; }
  }

  method ScalarBlock(block: seq<u8>, a: Q8KBlock, levels: array<int>) returns (blockSum: int)
    requires |block| == BLOCK_BYTES6 && IsQ8K(a) && levels.Length == VALUES
    modifies levels
    ensures blockSum == BlockInt(block, a, 16)
  {
    hide Levels, ScaleOf, Wrap32, DotInt;
    UnpackBlockLevels(block, levels);
    LevelsAreLevels(block);
    blockSum := 0;
    var g := 0;
    while g < 16
      invariant 0 <= g <= 16 && levels[..] == Levels(block)
      invariant blockSum == BlockInt(block, a, g)
    {
      var dot := ScalarGroup(levels[..][16 * g..16 * g + 16], a.qs[16 * g..16 * g + 16]);
      ScalarStepsFit(block, a, g, 16);
      WrapIsIdentity(32 * a.bsums[g]);
      WrapIsIdentity(dot - 32 * a.bsums[g]);
      var centered := Wrap32(dot - Wrap32(32 * a.bsums[g]));
      WrapIsIdentity(ScaleOf(block, g) * centered);
      WrapIsIdentity(blockSum + ScaleOf(block, g) * centered);
      blockSum := Wrap32(blockSum + Wrap32(ScaleOf(block, g) * centered));
      g := g + 1;
    }
  }

  // ---------------------------------------------------------------------------
  // AVX2
  // ---------------------------------------------------------------------------

  /** The uncorrected part: scaled level products of the first `n` groups. */
  function LevelSum(block: seq<u8>, a: Q8KBlock, n: nat): int
    requires |block| == BLOCK_BYTES6 && IsQ8K(a) && n <= 16
  {
    if n == 0 then 0 else LevelSum(block, a, n - 1) + ScaleOf(block, n - 1) * GroupDot(block, a, n - 1)
  }

  function Correction(block: seq<u8>, a: Q8KBlock, n: nat): int
    requires |block| == BLOCK_BYTES6 && IsQ8K(a) && n <= 16
  {
    if n == 0 then 0 else Correction(block, a, n - 1) + 32 * (ScaleOf(block, n - 1) * a.bsums[n - 1])
  }

  lemma {:induction false} CorrectedSum(block: seq<u8>, a: Q8KBlock, n: nat)
    requires |block| == BLOCK_BYTES6 && IsQ8K(a) && n <= 16
    ensures LevelSum(block, a, n) - Correction(block, a, n) == BlockInt(block, a, n)
  {
    hide ScaleOf, GroupDot;
    if n > 0 {
      CorrectedSum(block, a, n - 1);
      SplitTerm(ScaleOf(block, n - 1), GroupDot(block, a, n - 1), a.bsums[n - 1]);
    }
  }

  lemma SplitTerm(s: int, dot: int, bsum: int)
    ensures s * (dot - 32 * bsum) == s * dot - 32 * (s * bsum)
  {
  }

  /** Two groups at a time: thirty-two levels, two scales. */
  lemma TwoGroupsOfLevels(block: seq<u8>, a: Q8KBlock, g: nat)
    requires |block| == BLOCK_BYTES6 && IsQ8K(a) && g + 1 < 16
    ensures var w, q := Levels(block)[16 * g..16 * g + 32], a.qs[16 * g..16 * g + 32];
      Sum(Madd(MaddUbs(w, q), Ones(8, ScaleOf(block, g)) + Ones(8, ScaleOf(block, g + 1))))
      == ScaleOf(block, g) * GroupDot(block, a, g) + ScaleOf(block, g + 1) * GroupDot(block, a, g + 1)
  {
    hide Levels, ScaleOf, DotInt, Sum, Madd, MaddUbs;
    LevelsAreLevels(block);
    var w, q := Levels(block)[16 * g..16 * g + 32], a.qs[16 * g..16 * g + 32];
    TwoScales(w, q, ScaleOf(block, g), ScaleOf(block, g + 1), 63);
    GroupsOfSlice(Levels(block), g);
    GroupsOfSlice(a.qs, g);
  }

  lemma GroupsOfSlice(v: seq<int>, g: nat)
    requires |v| == VALUES && g + 1 < 16
    ensures var s := v[16 * g..16 * g + 32]; s[..16] == Group(v, g) && s[16..] == Group(v, g + 1)
  {
    var s := v[16 * g..16 * g + 32];
    assert 16 * (g + 1) == 16 * g + 16;
    assert s[..16] == v[16 * g..16 * g + 16];
    assert s[16..] == v[16 * g + 16..16 * g + 32];
  }

  lemma LevelSumTwo(block: seq<u8>, a: Q8KBlock, g: nat)
    requires |block| == BLOCK_BYTES6 && IsQ8K(a) && g + 2 <= 16
    ensures LevelSum(block, a, g + 2) == LevelSum(block, a, g)
         + (ScaleOf(block, g) * GroupDot(block, a, g) + ScaleOf(block, g + 1) * GroupDot(block, a, g + 1))
    ensures Correction(block, a, g + 2) == Correction(block, a, g)
         + 32 * (ScaleOf(block, g) * a.bsums[g] + ScaleOf(block, g + 1) * a.bsums[g + 1])
  {
    hide ScaleOf, GroupDot;
    assert LevelSum(block, a, g + 1) == LevelSum(block, a, g) + ScaleOf(block, g) * GroupDot(block, a, g);
    assert Correction(block, a, g + 1) == Correction(block, a, g) + 32 * (ScaleOf(block, g) * a.bsums[g]);
  }

  /** The scale vector of groups `g` and `g + 1`. */
  function ScalesAt(block: seq<u8>, g: nat): (r: seq<int>)
    requires |block| == BLOCK_BYTES6 && g + 1 < 16
    ensures |r| == 16 && Bounded(r, 128)
  {
    ScaleBound(Ones(8, ScaleOf(block, g)) + Ones(8, ScaleOf(block, g + 1)), ScaleOf(block, g), ScaleOf(block, g + 1));
    Ones(8, ScaleOf(block, g)) + Ones(8, ScaleOf(block, g + 1))
  }

  /** The eight lanes after `k` pairs of groups, as integers that neither saturate nor wrap. */
  function ExactLanes(block: seq<u8>, a: Q8KBlock, k: nat): (r: seq<int>)
    requires |block| == BLOCK_BYTES6 && IsQ8K(a) && k <= 8
    ensures |r| == 8
  {
    if k == 0 then Ones(8, 0) else
    var g := 2 * (k - 1);
    Plus(ExactLanes(block, a, k - 1),
         ScaledPairs(Levels(block)[16 * g..16 * g + 32], a.qs[16 * g..16 * g + 32], ScalesAt(block, g)))
  }

  /** Each lane stays within 4,096,512 a step, far inside 32 bits, and the lanes add up to the level sum. */
  lemma {:induction false} LanesFit(block: seq<u8>, a: Q8KBlock, k: nat)
    requires |block| == BLOCK_BYTES6 && IsQ8K(a) && k <= 8
    ensures Bounded(ExactLanes(block, a, k), 4096512 * k) && 4096512 * k * 8 < 0x8000_0000
    ensures Sum(ExactLanes(block, a, k)) == LevelSum(block, a, 2 * k)
  {
    hide Levels, LevelSum, ScaleOf, Sum, ScaledPairs, ScalesAt, GroupDot;
    if k == 0 {
      SumOfOnes(8, 0);
      NoLevelSum(block, a);
    } else {
      var g := 2 * (k - 1);
      var before := ExactLanes(block, a, k - 1);
      LanesFit(block, a, k - 1);
      LaneStep(block, a, g);
      var more := ScaledPairs(Levels(block)[16 * g..16 * g + 32], a.qs[16 * g..16 * g + 32], ScalesAt(block, g));
      PlusBounded(before, more, 4096512 * (k - 1), 4096512);
      PlusSum(before, more);
      LevelSumTwo(block, a, g);
    }
  }

  lemma NoLevelSum(block: seq<u8>, a: Q8KBlock)
    requires |block| == BLOCK_BYTES6 && IsQ8K(a)
    ensures LevelSum(block, a, 0) == 0 && Correction(block, a, 0) == 0
  {
  }

  /** One step of the lanes: nothing saturates or wraps, and it adds two groups' scaled products. */
  lemma LaneStep(block: seq<u8>, a: Q8KBlock, g: nat)
    requires |block| == BLOCK_BYTES6 && IsQ8K(a) && g + 1 < 16
    ensures var w, q := Levels(block)[16 * g..16 * g + 32], a.qs[16 * g..16 * g + 32];
      && MaddUbs(w, q) == PairSums(Products(w, q)) && Bounded(MaddUbs(w, q), 16002)
      && Madd(MaddUbs(w, q), ScalesAt(block, g)) == ScaledPairs(w, q, ScalesAt(block, g))
      && Bounded(ScaledPairs(w, q, ScalesAt(block, g)), 4096512)
      && Sum(ScaledPairs(w, q, ScalesAt(block, g)))
         == ScaleOf(block, g) * GroupDot(block, a, g) + ScaleOf(block, g + 1) * GroupDot(block, a, g + 1)
  {
    hide Levels, Sum, MaddUbs, Madd, ScaledPairs, ScaleOf, GroupDot, Products, PairSums;
    LevelsAreLevels(block);
    var w, q := Levels(block)[16 * g..16 * g + 32], a.qs[16 * g..16 * g + 32];
    ScaledPairsExact(w, q, ScalesAt(block, g), 63, 128);
    TwoGroupsOfLevels(block, a, g);
  }

  /** No operation on the correction overflows either. */
  lemma {:induction false} CorrectionFits(block: seq<u8>, a: Q8KBlock, n: nat)
    requires |block| == BLOCK_BYTES6 && IsQ8K(a) && n <= 16
    ensures -8323072 * n <= Correction(block, a, n) <= 8323072 * n && Fits32(Correction(block, a, n))
    ensures n + 2 <= 16 ==> var sum := ScaleOf(block, n) * a.bsums[n] + ScaleOf(block, n + 1) * a.bsums[n + 1];
      -520192 <= sum <= 520192 && Fits32(32 * sum)
  {
    hide ScaleOf;
    if n > 0 {
      CorrectionFits(block, a, n - 1);
      GroupTermBound(block, a, n - 1);
    }
    if n + 2 <= 16 {
      GroupTermBound(block, a, n);
      GroupTermBound(block, a, n + 1);
    }
  }

  /** The block in vector lanes. The lanes and the correction it ends with are those of integers of any size. */
  method Avx2Block(block: seq<u8>, a: Q8KBlock, levels: array<int>)
    returns (blockSum: int, dots: seq<int>, correction: int)
    requires |block| == BLOCK_BYTES6 && IsQ8K(a) && levels.Length == VALUES
    modifies levels
    ensures dots == ExactLanes(block, a, 8) && correction == Correction(block, a, 16)
    ensures blockSum == Sum(dots) - correction == BlockInt(block, a, 16)
  {
    hide Levels, ScaleOf, Wrap32, Sum, Madd, MaddUbs, Add32, LevelSum, Correction, ScalesAt, ExactLanes, ScaledPairs, GroupDot, Reduce8, BlockInt;
    UnpackBlockLevels(block, levels);
    dots := Ones(8, 0);
    correction := 0;
    NoLanes(block, a);
    var g := 0;
    while g < 16
      invariant 0 <= g <= 16 && g % 2 == 0 && levels[..] == Levels(block) && |dots| == 8
      invariant dots == ExactLanes(block, a, g / 2) && correction == Correction(block, a, g)
    {
      var q6, q8 := levels[..][16 * g..16 * g + 32], a.qs[16 * g..16 * g + 32];
      var products := Madd(MaddUbs(q6, q8), ScalesAt(block, g));
      assert g == 2 * (g / 2);
      NextLanes(block, a, g / 2);
      dots := Add32(dots, products);
      NextCorrection(block, a, g);
      correction := Wrap32(correction
                           + Wrap32(32 * (ScaleOf(block, g) * a.bsums[g] + ScaleOf(block, g + 1) * a.bsums[g + 1])));
      g := g + 2;
    }
    LanesLessCorrection(block, a);
    blockSum := Wrap32(Reduce8(dots) - correction);
  }

  lemma NextCorrection(block: seq<u8>, a: Q8KBlock, g: nat)
    requires |block| == BLOCK_BYTES6 && IsQ8K(a) && g + 2 <= 16
    ensures Wrap32(Correction(block, a, g)
                   + Wrap32(32 * (ScaleOf(block, g) * a.bsums[g] + ScaleOf(block, g + 1) * a.bsums[g + 1])))
         == Correction(block, a, g + 2)
  {
    hide ScaleOf, Wrap32, LevelSum, GroupDot;
    CorrectionFits(block, a, g);
    CorrectionFits(block, a, g + 2);
    LevelSumTwo(block, a, g);
    var more := 32 * (ScaleOf(block, g) * a.bsums[g] + ScaleOf(block, g + 1) * a.bsums[g + 1]);
    WrapIsIdentity(more);
    WrapIsIdentity(Correction(block, a, g) + more);
  }

  /** Neither the horizontal sum nor the last subtraction wraps. */
  lemma LanesLessCorrection(block: seq<u8>, a: Q8KBlock)
    requires |block| == BLOCK_BYTES6 && IsQ8K(a)
    ensures var dots, correction := ExactLanes(block, a, 8), Correction(block, a, 16);
      && Reduce8(dots) == Sum(dots)
      && Wrap32(Reduce8(dots) - correction) == Sum(dots) - correction == BlockInt(block, a, 16)
  {
    hide Levels, ScaleOf, Wrap32, Sum, LevelSum, Correction, ExactLanes, GroupDot, Reduce8;
    LanesFit(block, a, 8);
    Reduce8Exact(ExactLanes(block, a, 8), 4096512 * 8);
    CorrectedSum(block, a, 16);
    BlockIntBound(block, a, 16);
    WrapIsIdentity(BlockInt(block, a, 16));
  }

  lemma NoLanes(block: seq<u8>, a: Q8KBlock)
    requires |block| == BLOCK_BYTES6 && IsQ8K(a)
    ensures ExactLanes(block, a, 0) == Ones(8, 0) && Correction(block, a, 0) == 0
  {
  }

  lemma NextLanes(block: seq<u8>, a: Q8KBlock, k: nat)
    requires |block| == BLOCK_BYTES6 && IsQ8K(a) && k < 8
    ensures var w, q := Levels(block)[32 * k..32 * k + 32], a.qs[32 * k..32 * k + 32];
      Add32(ExactLanes(block, a, k), Madd(MaddUbs(w, q), ScalesAt(block, 2 * k))) == ExactLanes(block, a, k + 1)
  {
    hide Levels, Sum, MaddUbs, Madd, ScaledPairs, ScaleOf, GroupDot, LevelSum, ScalesAt, Add32, Plus, PairSums, Products;
    var w, q := Levels(block)[32 * k..32 * k + 32], a.qs[32 * k..32 * k + 32];
    LaneStep(block, a, 2 * k);
    LanesFit(block, a, k);
    Add32IsPlus(ExactLanes(block, a, k), Madd(MaddUbs(w, q), ScalesAt(block, 2 * k)), 4096512 * k, 4096512);
  }

  // ---------------------------------------------------------------------------
  // Rows
  // ---------------------------------------------------------------------------

  /** The float operations of a row, in the order the kernels apply them, left uninterpreted. */
  datatype FloatOps<!F> = FloatOps(zero: F, half: (u8, u8) -> F, activation: real -> F, ofInt: int -> F,
                                   mul: (F, F) -> F, add: (F, F) -> F)

  predicate AllQ8K(input: seq<Q8KBlock>) {
    forall k :: 0 <= k < |input| ==> IsQ8K(input[k])
  }

  function RowSum<F>(ops: FloatOps<F>, row: seq<u8>, input: seq<Q8KBlock>, n: nat): F
    requires n <= |input| && BLOCK_BYTES6 * n <= |row| && AllQ8K(input)
  {
    if n == 0 then ops.zero else
    var block, a := BlockAt(row, n - 1), input[n - 1];
    ops.add(RowSum(ops, row, input, n - 1),
            ops.mul(ops.mul(ops.half(block[208], block[209]), ops.activation(a.d)), ops.ofInt(BlockInt(block, a, 16))))
  }

  method DotRowQ8Scalar<F>(ops: FloatOps<F>, row: seq<u8>, input: seq<Q8KBlock>) returns (sum: F)
    requires |row| == BLOCK_BYTES6 * |input| && AllQ8K(input)
    ensures sum == RowSum(ops, row, input, |input|)
  {
    hide BlockInt;
    sum := ops.zero;
    var levels := new int[VALUES](i => 0);
    var k := 0;
    while k < |input|
      invariant 0 <= k <= |input|
      invariant sum == RowSum(ops, row, input, k)
    {
      var block := BlockAt(row, k);
      var blockSum := ScalarBlock(block, input[k], levels);
      sum := ops.add(sum, ops.mul(ops.mul(ops.half(block[208], block[209]), ops.activation(input[k].d)), ops.ofInt(blockSum)));
      k := k + 1;
    }
  }

  /** The vector kernel's result is the scalar kernel's, whatever the float operations round to. */
  method DotRowQ8Avx2<F>(ops: FloatOps<F>, row: seq<u8>, input: seq<Q8KBlock>) returns (sum: F)
    requires |row| == BLOCK_BYTES6 * |input| && AllQ8K(input)
    ensures sum == RowSum(ops, row, input, |input|)
  {
    hide BlockInt;
    sum := ops.zero;
    var levels := new int[VALUES](i => 0);
    var k := 0;
    while k < |input|
      invariant 0 <= k <= |input|
      invariant sum == RowSum(ops, row, input, k)
    {
      var block := BlockAt(row, k);
      var blockSum, _, _ := Avx2Block(block, input[k], levels);
      sum := ops.add(sum, ops.mul(ops.mul(ops.half(block[208], block[209]), ops.activation(input[k].d)), ops.ofInt(blockSum)));
      k := k + 1;
    }
  }
}
