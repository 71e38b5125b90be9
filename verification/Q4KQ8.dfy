/**
  Four-bit rows against byte activations: the scalar kernel and the AVX2 one compute the same
  two integers for every block, and in exact arithmetic the same row.
  */
module Q4KQ8 {
  import Bits
  import opened I2s
  import opened I2sInt
  import opened KLanes
  import opened Q8K

  const BLOCK_BYTES4: nat := 144
  const VALUES4: nat := 256

  // ---------------------------------------------------------------------------
  // Layout
  // ---------------------------------------------------------------------------

  /** The six-bit scale and minimum of a group, from the twelve scale bytes. */
  function ScaleMin(scales: seq<u8>, g: nat): (r: (int, int))
    requires |scales| == 12 && g < 8
    ensures 0 <= r.0 < 64 && 0 <= r.1 < 64
  {
    if g < 4 then (scales[g] % 64, scales[g + 4] % 64)
    else (scales[g + 4] % 16 + 16 * (scales[g - 4] / 64), scales[g + 4] / 16 + 16 * (scales[g] / 64))
  }

  /** What the source writes for it. */
  lemma ScaleMinBits(scales: seq<u8>, g: nat)
    requires |scales| == 12 && g < 8
    ensures var (scale, min) := ScaleMin(scales, g);
      if g < 4 then scale == Bits.And(scales[g], 63) && min == Bits.And(scales[g + 4], 63)
      else
        && scale == Bits.Or(Bits.And(scales[g + 4], 15), Bits.Shl(Bits.Shr(scales[g - 4], 6), 4))
        && min == Bits.Or(Bits.Shr(scales[g + 4], 4), Bits.Shl(Bits.Shr(scales[g], 6), 4))
  {
    hide Bits.And, Bits.Or, Bits.Shl, Bits.Shr;
    if g < 4 {
      Bits.LowSixBits(scales[g]);
      Bits.LowSixBits(scales[g + 4]);
    } else {
      Bits.LowNibble(scales[g + 4]);
      Bits.Shifts(scales[g + 4]);
      Bits.Shifts(scales[g - 4]);
      Bits.Shifts(scales[g]);
      Bits.NibblesJoin(scales[g + 4] % 16, scales[g - 4] / 64);
      Bits.NibblesJoin(scales[g + 4] / 16, scales[g] / 64);
    }
  }

  function ScalesOf(block: seq<u8>): (r: seq<u8>)
    requires |block| == BLOCK_BYTES4
    ensures |r| == 12
  {
    block[4..16]
  }

  function Band(block: seq<u8>, band: nat): (r: seq<u8>)
    requires |block| == BLOCK_BYTES4 && band < 4
    ensures |r| == 32
  {
    block[16 + 32 * band..16 + 32 * band + 32]
  }

  function LowNibbles(bytes: seq<u8>): (r: seq<int>)
    ensures |r| == |bytes| && InRange(r, 15)
  {
    seq(|bytes|, i requires 0 <= i < |bytes| => bytes[i] % 16)
  }

  function HighNibbles(bytes: seq<u8>): (r: seq<int>)
    ensures |r| == |bytes| && InRange(r, 15)
  {
    seq(|bytes|, i requires 0 <= i < |bytes| => bytes[i] / 16)
  }

  /** The 32 quants of a group: the low nibbles of its band, or the high ones. */
  function Quants(block: seq<u8>, g: nat): (r: seq<int>)
    requires |block| == BLOCK_BYTES4 && g < 8
    ensures |r| == 32 && InRange(r, 15)
  {
    if g % 2 == 0 then LowNibbles(Band(block, g / 2)) else HighNibbles(Band(block, g / 2))
  }

  function Acts32(a: Q8KBlock, g: nat): (r: seq<int>)
    requires IsQ8K(a) && g < 8
    ensures |r| == 32 && IsAct(r)
  {
    a.qs[32 * g..32 * g + 32]
  }

  function GroupDot4(block: seq<u8>, a: Q8KBlock, g: nat): int
    requires |block| == BLOCK_BYTES4 && IsQ8K(a) && g < 8
  {
    DotInt(Quants(block, g), Acts32(a, g))
  }

  function ScaleOf4(block: seq<u8>, g: nat): (s: int)
    requires |block| == BLOCK_BYTES4 && g < 8
    ensures 0 <= s < 64
  {
    ScaleMin(ScalesOf(block), g).0
  }

  function MinOf4(block: seq<u8>, g: nat): (m: int)
    requires |block| == BLOCK_BYTES4 && g < 8
    ensures 0 <= m < 64
  {
    ScaleMin(ScalesOf(block), g).1
  }

  /** The first `n` groups' scaled products. */
  function ScaledInt(block: seq<u8>, a: Q8KBlock, n: nat): int
    requires |block| == BLOCK_BYTES4 && IsQ8K(a) && n <= 8
  {
    if n == 0 then 0 else ScaledInt(block, a, n - 1) + ScaleOf4(block, n - 1) * GroupDot4(block, a, n - 1)
  }

  /** The first `n` groups' minima. */
  function MinInt(block: seq<u8>, a: Q8KBlock, n: nat): int
    requires |block| == BLOCK_BYTES4 && IsQ8K(a) && n <= 8
  {
    if n == 0 then 0 else
    MinInt(block, a, n - 1) + MinOf4(block, n - 1) * (a.bsums[2 * (n - 1)] + a.bsums[2 * (n - 1) + 1])
  }

  // ---------------------------------------------------------------------------
  // Both are sums over the weights
  // ---------------------------------------------------------------------------

  /** Scale by quant, and minimum, of every value. */
  function ScaledQuants(block: seq<u8>, n: nat): (r: seq<int>)
    requires |block| == BLOCK_BYTES4 && n <= 8
    ensures |r| == 32 * n
  {
    if n == 0 then [] else ScaledQuants(block, n - 1) + Products(Quants(block, n - 1), Ones(32, ScaleOf4(block, n - 1)))
  }

  function Minima(block: seq<u8>, n: nat): (r: seq<int>)
    requires |block| == BLOCK_BYTES4 && n <= 8
    ensures |r| == 32 * n
  {
    if n == 0 then [] else Minima(block, n - 1) + Ones(32, MinOf4(block, n - 1))
  }

  lemma {:induction false} ScaledProducts(v: seq<int>, q: seq<int>, s: int)
    requires |v| == |q|
    ensures DotInt(Products(v, Ones(|v|, s)), q) == s * DotInt(v, q)
  {
    if v != [] {
      var n := |v| - 1;
      ScaledProducts(v[..n], q[..n], s);
      assert Products(v, Ones(|v|, s))[..n] == Products(v[..n], Ones(n, s));
      assert Products(Products(v, Ones(|v|, s)), q)[..n] == Products(Products(v[..n], Ones(n, s)), q[..n]);
      assert Products(v, q)[..n] == Products(v[..n], q[..n]);
      FactorOut(v[n], q[n], s, DotInt(v[..n], q[..n]));
    }
  }

  lemma FactorOut(v: int, q: int, s: int, rest: int)
    ensures s * (rest + v * q) == s * rest + (v * s) * q
  {
    assert s * (v * q) == (v * s) * q;
  }

  lemma {:induction false} ScaledIntIsDot(block: seq<u8>, a: Q8KBlock, n: nat)
    requires |block| == BLOCK_BYTES4 && IsQ8K(a) && n <= 8
    ensures ScaledInt(block, a, n) == DotInt(ScaledQuants(block, n), a.qs[..32 * n])
  {
    hide DotInt, Quants, ScaleOf4;
    if n == 0 {
      EmptyProduct();
      assert a.qs[..0] == [];
    } else {
      ScaledIntIsDot(block, a, n - 1);
      var s := ScaleOf4(block, n - 1);
      ScaledProducts(Quants(block, n - 1), Acts32(a, n - 1), s);
      assert a.qs[..32 * n] == a.qs[..32 * (n - 1)] + Acts32(a, n - 1);
      DotIntConcat(ScaledQuants(block, n - 1), Products(Quants(block, n - 1), Ones(32, s)), a.qs[..32 * (n - 1)], Acts32(a, n - 1));
    }
  }

  lemma EmptyProduct()
    ensures DotInt([], []) == 0
  {
  }

  /** Because the group sums are true, the minima's integer is their product with the quants. */
  lemma {:induction false} MinIntIsDot(block: seq<u8>, a: Q8KBlock, n: nat)
    requires |block| == BLOCK_BYTES4 && IsQ8K(a) && n <= 8
    ensures MinInt(block, a, n) == DotInt(Minima(block, n), a.qs[..32 * n])
  {
    hide DotInt, MinOf4;
    if n == 0 {
      EmptyProduct();
      assert a.qs[..0] == [];
    } else {
      MinIntIsDot(block, a, n - 1);
      var m, q := MinOf4(block, n - 1), Acts32(a, n - 1);
      PairOfSums(a, n - 1);
      ConstantDot(q, m);
      assert a.qs[..32 * n] == a.qs[..32 * (n - 1)] + q;
      DotIntConcat(Minima(block, n - 1), Ones(32, m), a.qs[..32 * (n - 1)], q);
    }
  }

  lemma PairOfSums(a: Q8KBlock, g: nat)
    requires IsQ8K(a) && g < 8
    ensures a.bsums[2 * g] + a.bsums[2 * g + 1] == Sum(Acts32(a, g))
  {
    hide Sum;
    var h := 2 * g;
    assert a.bsums[h] == Sum(a.qs[16 * h..16 * h + 16]) && a.bsums[h + 1] == Sum(a.qs[16 * (h + 1)..16 * (h + 1) + 16]);
    assert Acts32(a, g) == a.qs[16 * h..16 * h + 16] + a.qs[16 * (h + 1)..16 * (h + 1) + 16];
    SumConcat(a.qs[16 * h..16 * h + 16], a.qs[16 * (h + 1)..16 * (h + 1) + 16]);
  }

  lemma ConstantDot(q: seq<int>, m: int)
    ensures DotInt(Ones(|q|, m), q) == m * Sum(q)
  {
    ScaledSum(q, m);
    assert Products(Ones(|q|, m), q) == Products(q, Ones(|q|, m));
  }

  // ---------------------------------------------------------------------------
  // How large they can get
  // ---------------------------------------------------------------------------

  lemma GroupBounds(block: seq<u8>, a: Q8KBlock, g: nat)
    requires |block| == BLOCK_BYTES4 && IsQ8K(a) && g < 8
    ensures -60960 <= GroupDot4(block, a, g) <= 60960
    ensures -3840480 <= ScaleOf4(block, g) * GroupDot4(block, a, g) <= 3840480
    ensures -4064 <= a.bsums[2 * g] + a.bsums[2 * g + 1] <= 4064
    ensures -256032 <= MinOf4(block, g) * (a.bsums[2 * g] + a.bsums[2 * g + 1]) <= 256032
  {
    hide Sum, Quants, ScaleOf4, MinOf4;
    var v, q := Quants(block, g), Acts32(a, g);
    ProductsBounded(v, q, 15, 127);
    SumBound(Products(v, q), 15 * 127);
    PairOfSums(a, g);
    SumBound(q, 127);
    ProductBound(ScaleOf4(block, g), GroupDot4(block, a, g), 63, 60960);
    ProductBound(MinOf4(block, g), a.bsums[2 * g] + a.bsums[2 * g + 1], 63, 4064);
  }

  lemma {:induction false} BlockBounds(block: seq<u8>, a: Q8KBlock, n: nat)
    requires |block| == BLOCK_BYTES4 && IsQ8K(a) && n <= 8
    ensures -3840480 * n <= ScaledInt(block, a, n) <= 3840480 * n
    ensures -256032 * n <= MinInt(block, a, n) <= 256032 * n
  {
    hide GroupDot4, ScaleOf4, MinOf4;
    if n > 0 {
      BlockBounds(block, a, n - 1);
      GroupBounds(block, a, n - 1);
    }
  }

  // ---------------------------------------------------------------------------
  // Scalar
  // ---------------------------------------------------------------------------

  lemma QuantAt(block: seq<u8>, g: nat, index: nat)
    requires |block| == BLOCK_BYTES4 && g < 8 && index < 32
    ensures var byte := block[16 + 32 * (g / 2) + index];
      Quants(block, g)[index] == if g % 2 != 0 then byte / 16 else byte % 16
  {
  }

  method ScalarGroup4(block: seq<u8>, a: Q8KBlock, g: nat) returns (dot: int)
    requires |block| == BLOCK_BYTES4 && IsQ8K(a) && g < 8
    ensures dot == GroupDot4(block, a, g)
  {
    hide Sum, Wrap32, LowNibbles, HighNibbles;
    dot := 0;
    ghost var products := Products(Quants(block, g), Acts32(a, g));
    ProductsBounded(Quants(block, g), Acts32(a, g), 15, 127);
    NoSum(products[..0]);
    var index := 0;
    while index < 32
      invariant 0 <= index <= 32
      invariant dot == Sum(products[..index]) && -(1905 * index) <= dot <= 1905 * index
    {
      var byte: int := block[16 + 32 * (g / 2) + index];
      var quant := if g % 2 != 0 then byte / 16 else byte % 16;
      QuantAt(block, g, index);
      assert products[..index + 1] == products[..index] + [products[index]];
      SumSnoc(products[..index], products[index]);
      WrapIsIdentity(dot + products[index]);
      dot := Wrap32(dot + quant * a.qs[32 * g + index]);
      index := index + 1;
    }
    assert products[..32] == products;
  }

  /**
    No 32-bit operation of the scalar block overflows: not the partial sums of a group's
    products, not their scaling, not the minimum's product, nor either running sum.
    */
  lemma ScalarStepsFit4(block: seq<u8>, a: Q8KBlock, g: nat, k: nat)
    requires |block| == BLOCK_BYTES4 && IsQ8K(a) && g < 8 && k <= 32
    ensures var v, q := Quants(block, g), Acts32(a, g);
      Fits32(DotInt(v[..k], q[..k])) && (k < 32 ==> Fits32(v[k] * q[k]))
    ensures Fits32(ScaleOf4(block, g) * GroupDot4(block, a, g)) && Fits32(ScaledInt(block, a, g + 1))
    ensures Fits32(a.bsums[2 * g] + a.bsums[2 * g + 1])
    ensures Fits32(MinOf4(block, g) * (a.bsums[2 * g] + a.bsums[2 * g + 1])) && Fits32(MinInt(block, a, g + 1))
  {
    hide Sum, Quants, ScaleOf4, MinOf4, ScaledInt, MinInt, GroupDot4;
    GroupBounds(block, a, g);
    BlockBounds(block, a, g + 1);
    var v, q := Quants(block, g), Acts32(a, g);
    ProductsBounded(v, q, 15, 127);
    assert Products(v[..k], q[..k]) == Products(v, q)[..k];
    SumBound(Products(v[..k], q[..k]), 1905);
    if k < 32 { assert Products(v, q)[k] == v[k] * q[k]; }
  }

  /** The block's two integers, in 32-bit arithmetic. */
  method ScalarBlock4(block: seq<u8>, a: Q8KBlock) returns (scaled: int, minimum: int)
    requires |block| == BLOCK_BYTES4 && IsQ8K(a)
    ensures scaled == ScaledInt(block, a, 8) && minimum == MinInt(block, a, 8)
  {
    hide Wrap32, GroupDot4, ScaleMin;
    scaled, minimum := 0, 0;
    var g := 0;
    while g < 8
      invariant 0 <= g <= 8
      invariant scaled == ScaledInt(block, a, g) && minimum == MinInt(block, a, g)
    {
      var sm := ScaleMin(block[4..16], g);
      var dot := ScalarGroup4(block, a, g);
      BlockBounds(block, a, g);
      GroupBounds(block, a, g);
      WrapIsIdentity(sm.0 * dot);
      WrapIsIdentity(scaled + sm.0 * dot);
      scaled := Wrap32(scaled + Wrap32(sm.0 * dot));
      var pair := Wrap32(a.bsums[2 * g] + a.bsums[2 * g + 1]);
      WrapIsIdentity(a.bsums[2 * g] + a.bsums[2 * g + 1]);
      WrapIsIdentity(sm.1 * pair);
      WrapIsIdentity(minimum + sm.1 * pair);
      minimum := Wrap32(minimum + Wrap32(sm.1 * pair));
      g := g + 1;
    }
  }

  // ---------------------------------------------------------------------------
  // AVX2
  // ---------------------------------------------------------------------------

  /** Shifting 16-bit lanes right by four, sign and all, then masking each byte. */
  function ShiftedNibbles(bytes: seq<u8>): (r: seq<int>)
    requires |bytes| % 2 == 0
    ensures |r| == |bytes|
  {
    seq(|bytes|, i requires 0 <= i < |bytes| =>
      var word: int := bytes[i - i % 2] as int + 256 * (bytes[i - i % 2 + 1] as int);
      var shifted := Wrap16(word) / 16;
      (if i % 2 == 0 then shifted % 256 else shifted / 256 % 256) % 16)
  }

  /** The bits that cross between bytes, and the sign, are masked away. */
  lemma ShiftedAreHigh(bytes: seq<u8>)
    requires |bytes| % 2 == 0
    ensures ShiftedNibbles(bytes) == HighNibbles(bytes)
  {
    forall i | 0 <= i < |bytes| ensures ShiftedNibbles(bytes)[i] == bytes[i] / 16 {
      ShiftedWord(bytes[i - i % 2], bytes[i - i % 2 + 1]);
    }
  }

  lemma ShiftedWord(low: u8, high: u8)
    ensures var shifted := Wrap16(low as int + 256 * (high as int)) / 16;
      shifted % 256 % 16 == low / 16 && shifted / 256 % 256 % 16 == high / 16
  {
    var word: int := low as int + 256 * (high as int);
    var v := Wrap16(word);
    var shifted := v / 16;
    var sign := if high >= 128 then -4096 else 0;
    assert v == word + 16 * sign;
    assert shifted == low / 16 + 16 * high + sign;
    var rest := high / 16;
    assert shifted == low / 16 + 16 * (high % 16) + 256 * rest + sign;
    assert shifted / 256 == rest + sign / 256;
    assert shifted % 256 == low / 16 + 16 * (high % 16);
    if high >= 128 {
      assert (rest - 16) % 256 == rest + 240;
    }
  }

  /** One group's 32 lanes by its scale. */
  lemma OneScale(w: seq<int>, q: seq<int>, s: int)
    requires |w| == |q| == 32 && InRange(w, 15) && IsAct(q) && 0 <= s < 64
    ensures Sum(Madd(MaddUbs(w, q), Ones(16, s))) == s * DotInt(w, q)
    ensures Bounded(Madd(MaddUbs(w, q), Ones(16, s)), 480060)
  {
    hide Sum, Products, PairSums, MaddUbs, Madd;
    TwoScales(w, q, s, s, 15);
    assert Ones(8, s) + Ones(8, s) == Ones(16, s);
    assert w == w[..16] + w[16..] && q == q[..16] + q[16..];
    DotIntConcat(w[..16], w[16..], q[..16], q[16..]);
    MaddUbsIsExact(w, q, 15);
    MaddIsExact(MaddUbs(w, q), Ones(16, s), 3810, 63);
    ProductsBounded(MaddUbs(w, q), Ones(16, s), 3810, 63);
    PairSumsBounded(Products(MaddUbs(w, q), Ones(16, s)), 3810 * 63);
  }

  /** The eight lanes after `g` groups, as integers that neither saturate nor wrap. */
  function ExactLanes4(block: seq<u8>, a: Q8KBlock, g: nat): (r: seq<int>)
    requires |block| == BLOCK_BYTES4 && IsQ8K(a) && g <= 8
    ensures |r| == 8
  {
    if g == 0 then Ones(8, 0) else
    Plus(ExactLanes4(block, a, g - 1), ScaledPairs(Quants(block, g - 1), Acts32(a, g - 1), Ones(16, ScaleOf4(block, g - 1))))
  }

  /** One group's step of the lanes: nothing saturates or wraps, and it adds the group's scaled product. */
  lemma LaneStep4(block: seq<u8>, a: Q8KBlock, g: nat)
    requires |block| == BLOCK_BYTES4 && IsQ8K(a) && g < 8
    ensures var w, q, scales := Quants(block, g), Acts32(a, g), Ones(16, ScaleOf4(block, g));
      && MaddUbs(w, q) == PairSums(Products(w, q)) && Bounded(MaddUbs(w, q), 3810)
      && Madd(MaddUbs(w, q), scales) == ScaledPairs(w, q, scales)
      && Bounded(ScaledPairs(w, q, scales), 480060)
      && Sum(ScaledPairs(w, q, scales)) == ScaleOf4(block, g) * GroupDot4(block, a, g)
  {
    hide Quants, ScaleOf4, MaddUbs, Madd, ScaledPairs, PairSums, Products, Sum;
    var s := ScaleOf4(block, g);
    assert Bounded(Ones(16, s), 63);
    ScaledPairsExact(Quants(block, g), Acts32(a, g), Ones(16, s), 15, 63);
    OneScale(Quants(block, g), Acts32(a, g), s);
  }

  /** Each lane stays within 480,060 a group, far inside 32 bits, and the lanes add up to the scaled integer. */
  lemma {:induction false} LanesFit4(block: seq<u8>, a: Q8KBlock, g: nat)
    requires |block| == BLOCK_BYTES4 && IsQ8K(a) && g <= 8
    ensures Bounded(ExactLanes4(block, a, g), 480060 * g) && 480060 * g < 0x8000_0000
    ensures Sum(ExactLanes4(block, a, g)) == ScaledInt(block, a, g)
  {
    hide Quants, ScaleOf4, Sum, ScaledPairs, GroupDot4;
    if g == 0 {
      SumOfOnes(8, 0);
    } else {
      var before := ExactLanes4(block, a, g - 1);
      var more := ScaledPairs(Quants(block, g - 1), Acts32(a, g - 1), Ones(16, ScaleOf4(block, g - 1)));
      LanesFit4(block, a, g - 1);
      LaneStep4(block, a, g - 1);
      PlusBounded(before, more, 480060 * (g - 1), 480060);
      PlusSum(before, more);
    }
  }

  /** Adding one group's lanes. */
  method AddGroup(block: seq<u8>, a: Q8KBlock, g: nat, quants: seq<int>, lanes: seq<int>) returns (lanes': seq<int>)
    requires |block| == BLOCK_BYTES4 && IsQ8K(a) && g < 8
    requires quants == Quants(block, g) && lanes == ExactLanes4(block, a, g)
    ensures lanes' == ExactLanes4(block, a, g + 1)
  {
    hide Sum, Madd, MaddUbs, Add32, DotInt, Quants, ScaleMin, ScaledPairs, Plus;
    var s := ScaleMin(block[4..16], g).0;
    var q := a.qs[32 * g..32 * g + 32];
    var products := Madd(MaddUbs(quants, q), Ones(16, s));
    LaneStep4(block, a, g);
    LanesFit4(block, a, g);
    Add32IsPlus(lanes, products, 480060 * g, 480060);
    lanes' := Add32(lanes, products);
  }

  /** The block in vector lanes. The lanes it ends with are those of integers of any size. */
  method Avx2Block4(block: seq<u8>, a: Q8KBlock) returns (lanes: seq<int>, minimum: int)
    requires |block| == BLOCK_BYTES4 && IsQ8K(a)
    ensures lanes == ExactLanes4(block, a, 8)
    ensures |lanes| == 8 && Sum(lanes) == ScaledInt(block, a, 8) && minimum == MinInt(block, a, 8)
  {
    hide ExactLanes4, ScaledInt, MinInt, GroupDot4, ScaleMin, LowNibbles, HighNibbles, ShiftedNibbles, Sum;
    lanes, minimum := Ones(8, 0), 0;
    NoLanes4(block, a);
    var band := 0;
    while band < 4
      invariant 0 <= band <= 4
      invariant lanes == ExactLanes4(block, a, 2 * band) && minimum == MinInt(block, a, 2 * band)
    {
      var low, high := 2 * band, 2 * band + 1;
      var bytes := block[16 + 32 * band..16 + 32 * band + 32];
      BandQuants(block, band);
      lanes := AddGroup(block, a, low, LowNibbles(bytes), lanes);
      lanes := AddGroup(block, a, high, ShiftedNibbles(bytes), lanes);
      minimum := AddMinimum(block, a, low, minimum);
      minimum := AddMinimum(block, a, high, minimum);
      band := band + 1;
    }
    LanesFit4(block, a, 8);
  }

  lemma NoLanes4(block: seq<u8>, a: Q8KBlock)
    requires |block| == BLOCK_BYTES4 && IsQ8K(a)
    ensures ExactLanes4(block, a, 0) == Ones(8, 0) && MinInt(block, a, 0) == 0
  {
  }

  /** The kernel's two masks give a band's two groups of quants. */
  lemma BandQuants(block: seq<u8>, band: nat)
    requires |block| == BLOCK_BYTES4 && band < 4
    ensures var bytes := block[16 + 32 * band..16 + 32 * band + 32];
      LowNibbles(bytes) == Quants(block, 2 * band) && ShiftedNibbles(bytes) == Quants(block, 2 * band + 1)
  {
    hide LowNibbles, HighNibbles, ShiftedNibbles;
    var low, high := 2 * band, 2 * band + 1;
    assert low / 2 == band && high / 2 == band && low % 2 == 0 && high % 2 == 1;
    ShiftedAreHigh(Band(block, band));
  }

  method AddMinimum(block: seq<u8>, a: Q8KBlock, g: nat, minimum: int) returns (minimum': int)
    requires |block| == BLOCK_BYTES4 && IsQ8K(a) && g < 8 && minimum == MinInt(block, a, g)
    ensures minimum' == MinInt(block, a, g + 1)
  {
    hide Wrap32, GroupDot4, ScaleMin, ScaledInt, DotInt, Quants;
    ScalarStepsFit4(block, a, g, 0);
    var m := ScaleMin(block[4..16], g).1;
    var pair := a.bsums[2 * g] + a.bsums[2 * g + 1];
    WrapIsIdentity(pair);
    WrapIsIdentity(m * pair);
    WrapIsIdentity(minimum + m * pair);
    minimum' := Wrap32(minimum + Wrap32(m * Wrap32(pair)));
  }

  // ---------------------------------------------------------------------------
  // Rows, in exact arithmetic
  // ---------------------------------------------------------------------------

  function Times3(a: real, b: real, n: int): real {
    a * b * n as real
  }

  /** The value of a half-precision number's two bytes; finite for a validated row's. */
  type Half = (u8, u8) -> real

  function DOf4(f16: Half, block: seq<u8>): real
    requires |block| == BLOCK_BYTES4
  {
    f16(block[0], block[1])
  }

  function DminOf4(f16: Half, block: seq<u8>): real
    requires |block| == BLOCK_BYTES4
  {
    f16(block[2], block[3])
  }

  function Block4At(row: seq<u8>, k: nat): (b: seq<u8>)
    requires BLOCK_BYTES4 * k + BLOCK_BYTES4 <= |row|
    ensures |b| == BLOCK_BYTES4
  {
    row[BLOCK_BYTES4 * k..BLOCK_BYTES4 * k + BLOCK_BYTES4]
  }

  predicate AllQ8K4(input: seq<Q8KBlock>) {
    forall k :: 0 <= k < |input| ==> IsQ8K(input[k])
  }

  function RowValue(f16: Half, row: seq<u8>, input: seq<Q8KBlock>, n: nat): real
    requires n <= |input| && BLOCK_BYTES4 * n <= |row| && AllQ8K4(input)
  {
    if n == 0 then 0.0 else
    var block, a := Block4At(row, n - 1), input[n - 1];
    RowValue(f16, row, input, n - 1)
    + (Times3(DOf4(f16, block), a.d, ScaledInt(block, a, 8)) - Times3(DminOf4(f16, block), a.d, MinInt(block, a, 8)))
  }

  method DotRow4Scalar(f16: Half, row: seq<u8>, input: seq<Q8KBlock>) returns (sum: real)
    requires |row| == BLOCK_BYTES4 * |input| && AllQ8K4(input)
    ensures sum == RowValue(f16, row, input, |input|)
  {
    hide ScaledInt, MinInt, Times3;
    sum := 0.0;
    var k := 0;
    while k < |input|
      invariant 0 <= k <= |input|
      invariant sum == RowValue(f16, row, input, k)
    {
      var block, a := Block4At(row, k), input[k];
      var scaled, minimum := ScalarBlock4(block, a);
      sum := sum + (Times3(DOf4(f16, block), a.d, scaled) - Times3(DminOf4(f16, block), a.d, minimum));
      k := k + 1;
    }
  }

  function SumReal(v: seq<real>): real {
    if v == [] then 0.0 else SumReal(v[..|v| - 1]) + v[|v| - 1]
  }

  /** Each float lane grows by its integer lane times the block's scales. */
  function AddConverted(acc: seq<real>, lanes: seq<int>, d: real, ad: real): (r: seq<real>)
    requires |acc| == |lanes|
    ensures |r| == |acc|
  {
    seq(|acc|, i requires 0 <= i < |acc| => acc[i] + Times3(d, ad, lanes[i]))
  }

  lemma {:induction false} ConvertedSum(acc: seq<real>, lanes: seq<int>, d: real, ad: real)
    requires |acc| == |lanes|
    ensures SumReal(AddConverted(acc, lanes, d, ad)) == SumReal(acc) + Times3(d, ad, Sum(lanes))
  {
    hide Times3;
    if acc == [] {
      TimesSum(d, ad, 0, 0);
    } else {
      var k := |acc| - 1;
      ConvertedSum(acc[..k], lanes[..k], d, ad);
      assert AddConverted(acc, lanes, d, ad)[..k] == AddConverted(acc[..k], lanes[..k], d, ad);
      TimesSum(d, ad, Sum(lanes[..k]), lanes[k]);
    }
  }

  lemma TimesSum(d: real, ad: real, m: int, n: int)
    ensures Times3(d, ad, m + n) == Times3(d, ad, m) + Times3(d, ad, n)
    ensures Times3(d, ad, 0) == 0.0
  {
    var p := d * ad;
    assert p * (m + n) as real == p * m as real + p * n as real;
  }

  /** The two halves added, then the four lanes. */
  function Hsum8(v: seq<real>): (s: real)
    requires |v| == 8
  {
    var h := [v[0] + v[4], v[1] + v[5], v[2] + v[6], v[3] + v[7]];
    (h[0] + h[2]) + (h[1] + h[3])
  }

  lemma Hsum8IsSum(v: seq<real>)
    requires |v| == 8
    ensures Hsum8(v) == SumReal(v)
  {
    assert SumReal(v[..1]) == v[0] by { assert v[..1][..0] == []; }
    SumNext(v, 1);
    SumNext(v, 2);
    SumNext(v, 3);
    SumNext(v, 4);
    SumNext(v, 5);
    SumNext(v, 6);
    SumNext(v, 7);
    assert v[..8] == v;
  }

  lemma SumNext(v: seq<real>, k: nat)
    requires k < |v|
    ensures SumReal(v[..k + 1]) == SumReal(v[..k]) + v[k]
  {
    assert v[..k + 1][..k] == v[..k];
  }

  method DotRow4Avx2(f16: Half, row: seq<u8>, input: seq<Q8KBlock>) returns (sum: real)
    requires |row| == BLOCK_BYTES4 * |input| && AllQ8K4(input)
    ensures sum == RowValue(f16, row, input, |input|)
  {
    hide ScaledInt, MinInt, Times3, AddConverted, Sum, SumReal, Hsum8;
    var acc := seq(8, _ => 0.0);
    ZeroAcc(acc);
    var minimumSum := 0.0;
    var k := 0;
    while k < |input|
      invariant 0 <= k <= |input| && |acc| == 8
      invariant SumReal(acc) - minimumSum == RowValue(f16, row, input, k)
    {
      var block, a := Block4At(row, k), input[k];
      var lanes, minimum := Avx2Block4(block, a);
      ConvertedSum(acc, lanes, DOf4(f16, block), a.d);
      acc := AddConverted(acc, lanes, DOf4(f16, block), a.d);
      minimumSum := minimumSum + Times3(DminOf4(f16, block), a.d, minimum);
      k := k + 1;
    }
    Hsum8IsSum(acc);
    sum := Hsum8(acc) - minimumSum;
  }

  lemma ZeroAcc(acc: seq<real>)
    requires |acc| == 8 && forall i :: 0 <= i < 8 ==> acc[i] == 0.0
    ensures SumReal(acc) == 0.0
  {
    hide SumReal;
    Hsum8IsSum(acc);
  }
}
