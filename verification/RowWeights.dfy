/**
  The value of every weight in the packed four- and six-bit rows, straight from the bytes,
  and that each kernel's result is, over the reals, the sum of weight times activation.
  */
module RowWeights {
  import opened I2s
  import opened I2sInt
  import opened Q8K
  import Bits
  import Q4KQ8
  import Q4KTiled
  import Q6K
  import Q6KFloat
  import Q6KQ8

  type Half = (u8, u8) -> real

  // ---------------------------------------------------------------------------
  // Sums
  // ---------------------------------------------------------------------------

  function Total(v: seq<real>): real {
    if v == [] then 0.0 else Total(v[..|v| - 1]) + v[|v| - 1]
  }

  lemma {:induction false} TotalConcat(a: seq<real>, b: seq<real>)
    ensures Total(a + b) == Total(a) + Total(b)
  {
    if b == [] {
      assert a + b == a;
    } else {
      TotalConcat(a, b[..|b| - 1]);
      assert (a + b)[..|a + b| - 1] == a + b[..|b| - 1];
    }
  }

  function Times(w: real, x: real): real {
    w * x
  }

  // ---------------------------------------------------------------------------
  // Four bits
  // ---------------------------------------------------------------------------

  /** The four-bit quant of value `j` of a block: low nibbles of 32 bytes, then their high ones. */
  function Quant4(block: seq<u8>, j: nat): int
    requires |block| == 144 && j < 256
  {
    var byte := block[16 + j / 64 * 32 + j % 32];
    if j % 64 < 32 then Bits.And(byte, 15) else Bits.Shr(byte, 4)
  }

  /** The six-bit scale of the group of 32 that value `j` is in, and its minimum. */
  function Scale4(block: seq<u8>, j: nat): int
    requires |block| == 144 && j < 256
  {
    var g := j / 32;
    if g < 4 then Bits.And(block[4 + g], 63)
    else Bits.Or(Bits.And(block[8 + g], 15), Bits.Shl(Bits.Shr(block[g], 6), 4))
  }

  function Min4(block: seq<u8>, j: nat): int
    requires |block| == 144 && j < 256
  {
    var g := j / 32;
    if g < 4 then Bits.And(block[8 + g], 63)
    else Bits.Or(Bits.Shr(block[8 + g], 4), Bits.Shl(Bits.Shr(block[4 + g], 6), 4))
  }

  /** `d` by the scaled quant, less `dmin` by the minimum. */
  function Affine(d: real, dmin: real, scaled: int, minimum: int): real {
    d * scaled as real - dmin * minimum as real
  }

  function Weight4(f16: Half, block: seq<u8>, j: nat): real
    requires |block| == 144 && j < 256
  {
    Affine(f16(block[0], block[1]), f16(block[2], block[3]), Scale4(block, j) * Quant4(block, j), Min4(block, j))
  }

  lemma QuantsAre(block: seq<u8>, j: nat)
    requires |block| == 144 && j < 256
    ensures Q4KQ8.Quants(block, j / 32)[j % 32] == Quant4(block, j)
  {
    hide Bits.And, Bits.Shr;
    var g, l := j / 32, j % 32;
    assert j / 64 == g / 2 && (j % 64 < 32 <==> g % 2 == 0);
    var byte := block[16 + j / 64 * 32 + l];
    assert Q4KQ8.Band(block, g / 2)[l] == byte;
    Bits.LowNibble(byte);
    Bits.Shifts(byte);
  }

  lemma ScalesAre(block: seq<u8>, j: nat)
    requires |block| == 144 && j < 256
    ensures Q4KQ8.ScaleMin(block[4..16], j / 32) == (Scale4(block, j), Min4(block, j))
  {
    hide Bits.And, Bits.Or, Bits.Shl, Bits.Shr, Q4KQ8.ScaleMin;
    Q4KQ8.ScaleMinBits(block[4..16], j / 32);
  }

  lemma {:induction false} ScaledQuantAt(block: seq<u8>, n: nat, j: nat)
    requires |block| == 144 && n <= 8 && j < 32 * n
    ensures Q4KQ8.ScaledQuants(block, n)[j] == Scale4(block, j) * Quant4(block, j)
    ensures Q4KQ8.Minima(block, n)[j] == Min4(block, j)
  {
    hide Q4KQ8.Quants, Q4KQ8.ScaleMin, Scale4, Min4, Quant4;
    if j < 32 * (n - 1) {
      ScaledQuantAt(block, n - 1, j);
    } else {
      QuantsAre(block, j);
      ScalesAre(block, j);
      assert j / 32 == n - 1 && j % 32 == j - 32 * (n - 1);
      var v, s := Q4KQ8.Quants(block, n - 1), Q4KQ8.ScaleOf4(block, n - 1);
      assert Products(v, Ones(32, s))[j % 32] == v[j % 32] * s;
    }
  }

  /** Affine weights against restored activations. */
  function AffineTerms(d: real, dmin: real, ad: real, s: seq<int>, m: seq<int>, q: seq<int>): (r: seq<real>)
    requires |s| == |m| == |q|
    ensures |r| == |q|
  {
    seq(|q|, i requires 0 <= i < |q| => Times(Affine(d, dmin, s[i], m[i]), Times(ad, q[i] as real)))
  }

  lemma {:induction false} AffineDot(d: real, dmin: real, ad: real, s: seq<int>, m: seq<int>, q: seq<int>)
    requires |s| == |m| == |q|
    ensures Total(AffineTerms(d, dmin, ad, s, m, q))
         == Q4KQ8.Times3(d, ad, DotInt(s, q)) - Q4KQ8.Times3(dmin, ad, DotInt(m, q))
  {
    hide Q4KQ8.Times3, Times, Affine;
    if q == [] {
      Q4KQ8.TimesSum(d, ad, 0, 0);
      Q4KQ8.TimesSum(dmin, ad, 0, 0);
    } else {
      var n := |q| - 1;
      AffineDot(d, dmin, ad, s[..n], m[..n], q[..n]);
      assert AffineTerms(d, dmin, ad, s, m, q)[..n] == AffineTerms(d, dmin, ad, s[..n], m[..n], q[..n]);
      assert Products(s, q)[..n] == Products(s[..n], q[..n]) && Products(m, q)[..n] == Products(m[..n], q[..n]);
      Q4KQ8.TimesSum(d, ad, DotInt(s[..n], q[..n]), s[n] * q[n]);
      Q4KQ8.TimesSum(dmin, ad, DotInt(m[..n], q[..n]), m[n] * q[n]);
      OneTerm(d, dmin, ad, s[n], m[n], q[n]);
    }
  }

  lemma OneTerm(d: real, dmin: real, ad: real, s: int, m: int, q: int)
    ensures Times(Affine(d, dmin, s, m), Times(ad, q as real)) == Q4KQ8.Times3(d, ad, s * q) - Q4KQ8.Times3(dmin, ad, m * q)
  {
    Regroup(d, ad, s, q);
    Regroup(dmin, ad, m, q);
    var x, y, z := ad * q as real, d * s as real, dmin * m as real;
    assert (y - z) * x == y * x - z * x;
  }

  lemma Regroup(d: real, ad: real, s: int, q: int)
    ensures (d * s as real) * (ad * q as real) == Q4KQ8.Times3(d, ad, s * q)
  {
    var x, y := s as real, q as real;
    assert (s * q) as real == x * y;
    assert (d * x) * (ad * y) == d * (x * (ad * y));
    assert x * (ad * y) == ad * (x * y);
    assert d * (ad * (x * y)) == (d * ad) * (x * y);
  }

  // ---------------------------------------------------------------------------
  // Rows against byte activations
  // ---------------------------------------------------------------------------

  /** Value `i` of the activations: its block's scale by its quant. */
  function Restored(input: seq<Q8KBlock>, i: nat): real
    requires i < 256 * |input| && Q4KQ8.AllQ8K4(input)
  {
    Times(input[i / 256].d, input[i / 256].qs[i % 256] as real)
  }

  lemma BlockOf(n: nat, j: nat)
    requires j < 256
    ensures (256 * n + j) / 256 == n && (256 * n + j) % 256 == j
  {
  }

  lemma InRow(i: nat, n: nat, bytes: nat)
    requires i < 256 * n
    ensures i / 256 < n && bytes * (i / 256) + bytes <= bytes * n
  {
    assert bytes * (i / 256) + bytes == bytes * (i / 256 + 1);
    assert bytes * (i / 256 + 1) <= bytes * n;
  }

  /** The products of the first `n` blocks' values, in order. */
  function Terms4(f16: Half, row: seq<u8>, input: seq<Q8KBlock>, n: nat): (r: seq<real>)
    requires n <= |input| && 144 * n <= |row| && Q4KQ8.AllQ8K4(input)
    ensures |r| == 256 * n
  {
    seq(256 * n, i requires 0 <= i < 256 * n =>
      InRow(i, n, 144);
      Times(Weight4(f16, row[144 * (i / 256)..144 * (i / 256) + 144], i % 256), Restored(input, i)))
  }

  function BlockTerms4(f16: Half, block: seq<u8>, a: Q8KBlock): (r: seq<real>)
    requires |block| == 144 && IsQ8K(a)
    ensures |r| == 256
  {
    seq(256, j requires 0 <= j < 256 => Times(Weight4(f16, block, j), Times(a.d, a.qs[j] as real)))
  }

  lemma BlockTotal4(f16: Half, block: seq<u8>, a: Q8KBlock)
    requires |block| == 144 && IsQ8K(a)
    ensures Total(BlockTerms4(f16, block, a))
         == Q4KQ8.Times3(f16(block[0], block[1]), a.d, Q4KQ8.ScaledInt(block, a, 8))
          - Q4KQ8.Times3(f16(block[2], block[3]), a.d, Q4KQ8.MinInt(block, a, 8))
  {
    hide Q4KQ8.Times3, Q4KQ8.ScaledInt, Q4KQ8.MinInt, Q4KQ8.ScaledQuants, Q4KQ8.Minima, Scale4, Min4, Quant4, Total, DotInt, Affine, Times;
    var s, m := Q4KQ8.ScaledQuants(block, 8), Q4KQ8.Minima(block, 8);
    var d, dmin := f16(block[0], block[1]), f16(block[2], block[3]);
    Q4KQ8.ScaledIntIsDot(block, a, 8);
    Q4KQ8.MinIntIsDot(block, a, 8);
    assert a.qs[..256] == a.qs;
    AffineDot(d, dmin, a.d, s, m, a.qs);
    forall j: nat | j < 256 ensures BlockTerms4(f16, block, a)[j] == AffineTerms(d, dmin, a.d, s, m, a.qs)[j] {
      ScaledQuantAt(block, 8, j);
    }
    assert BlockTerms4(f16, block, a) == AffineTerms(d, dmin, a.d, s, m, a.qs);
  }

  lemma Terms4Snoc(f16: Half, row: seq<u8>, input: seq<Q8KBlock>, n: nat)
    requires n < |input| && 144 * (n + 1) <= |row| && Q4KQ8.AllQ8K4(input)
    ensures Terms4(f16, row, input, n + 1)
         == Terms4(f16, row, input, n) + BlockTerms4(f16, row[144 * n..144 * n + 144], input[n])
  {
    hide Weight4, Times;
    var all, block := Terms4(f16, row, input, n + 1), row[144 * n..144 * n + 144];
    forall i | 256 * n <= i < 256 * n + 256 ensures all[i] == BlockTerms4(f16, block, input[n])[i - 256 * n] {
      BlockOf(n, i - 256 * n);
    }
  }

  /**
    Both four-bit kernels with byte activations: their common value is the sum, over every
    value of the row, of its weight times its restored activation.
    */
  lemma {:induction false} Row4IsSum(f16: Half, row: seq<u8>, input: seq<Q8KBlock>, n: nat)
    requires n <= |input| && 144 * n <= |row| && Q4KQ8.AllQ8K4(input)
    ensures Q4KQ8.RowValue(f16, row, input, n) == Total(Terms4(f16, row, input, n))
  {
    hide Q4KQ8.Times3, Q4KQ8.ScaledInt, Q4KQ8.MinInt, Terms4, BlockTerms4;
    if n == 0 {
      NoTerms4(f16, row, input);
    } else {
      Row4IsSum(f16, row, input, n - 1);
      var block := row[144 * (n - 1)..144 * (n - 1) + 144];
      BlockTotal4(f16, block, input[n - 1]);
      Terms4Snoc(f16, row, input, n - 1);
      TotalConcat(Terms4(f16, row, input, n - 1), BlockTerms4(f16, block, input[n - 1]));
    }
  }

  lemma NoTerms4(f16: Half, row: seq<u8>, input: seq<Q8KBlock>)
    requires Q4KQ8.AllQ8K4(input)
    ensures Terms4(f16, row, input, 0) == []
  {
  }

  // ---------------------------------------------------------------------------
  // Six bits
  // ---------------------------------------------------------------------------

  /** The six-bit level of value `j`: four bits from one of 128 bytes, two from one of 64. */
  function Level6(block: seq<u8>, j: nat): int
    requires |block| == 210 && j < 256
  {
    var half, lane, l := j / 128, j % 128 / 32, j % 32;
    var low, high := block[64 * half + lane % 2 * 32 + l], block[128 + 32 * half + l];
    Bits.Or(if lane < 2 then Bits.And(low, 15) else Bits.Shr(low, 4),
            Bits.Shl(Bits.And(if lane == 0 then high else Bits.Shr(high, 2 * lane), 3), 4))
  }

  /** The signed scale of the group of sixteen that value `j` is in. */
  function Scale6(block: seq<u8>, j: nat): int
    requires |block| == 210 && j < 256
  {
    var b: int := block[192 + j / 16];
    if b < 128 then b else b - 256
  }

  /** `d` by scale by the level less 32. */
  function Weight6(d: real, block: seq<u8>, j: nat): real
    requires |block| == 210 && j < 256
  {
    Times(d, (Scale6(block, j) * (Level6(block, j) - 32)) as real)
  }

  lemma LevelsAre(block: seq<u8>, j: nat)
    requires |block| == 210 && j < 256
    ensures Q6K.Levels(block)[j] == Level6(block, j)
  {
    hide Bits.And, Bits.Or, Bits.Shl, Bits.Shr, Q6K.LevelAt, Q6K.Levels;
    var half, lane, l := j / 128, j % 128 / 32, j % 32;
    Q6K.Places(j);
    Q6K.LevelsAt(block, half, lane, l);
    Q6K.DecodedLevels(block, half, l);
  }

  lemma IntWeightsAre(block: seq<u8>, j: nat)
    requires |block| == 210 && j < 256
    ensures Q6KQ8.IntWeights(block, 16)[j] == Scale6(block, j) * (Level6(block, j) - 32)
  {
    hide Q6K.Levels, Level6, Q6KQ8.IntWeights;
    LevelsAre(block, j);
    Q6KQ8.IntWeightAt(block, 16, j);
  }

  /** The kernels' float operations as the real ones. */
  function RealOps(f16: Half): Q6KQ8.FloatOps<real> {
    Q6KQ8.FloatOps(0.0, f16, (a: real) => a, (n: int) => n as real, (x: real, y: real) => x * y, (x: real, y: real) => x + y)
  }

  function Terms6(f16: Half, row: seq<u8>, input: seq<Q8KBlock>, n: nat): (r: seq<real>)
    requires n <= |input| && 210 * n <= |row| && Q4KQ8.AllQ8K4(input)
    ensures |r| == 256 * n
  {
    seq(256 * n, i requires 0 <= i < 256 * n =>
      InRow(i, n, 210);
      var block := row[210 * (i / 256)..210 * (i / 256) + 210];
      Times(Weight6(f16(block[208], block[209]), block, i % 256), Restored(input, i)))
  }

  function BlockTerms6(d: real, block: seq<u8>, a: Q8KBlock): (r: seq<real>)
    requires |block| == 210 && IsQ8K(a)
    ensures |r| == 256
  {
    seq(256, j requires 0 <= j < 256 => Times(Weight6(d, block, j), Times(a.d, a.qs[j] as real)))
  }

  /** An integer weight is an affine one with nothing subtracted. */
  lemma NothingSubtracted(d: real, n: int)
    ensures Affine(d, 0.0, n, 0) == Times(d, n as real)
  {
  }

  lemma {:induction false} ZeroDot(q: seq<int>)
    ensures DotInt(Ones(|q|, 0), q) == 0
  {
    Q4KQ8.ConstantDot(q, 0);
  }

  lemma BlockTotal6(d: real, block: seq<u8>, a: Q8KBlock)
    requires |block| == 210 && IsQ8K(a)
    ensures Total(BlockTerms6(d, block, a)) == Q4KQ8.Times3(d, a.d, Q6KQ8.BlockInt(block, a, 16))
  {
    hide Q4KQ8.Times3, Q6KQ8.BlockInt, Q6KQ8.IntWeights, Scale6, Level6, Total, DotInt, Affine, Times;
    var s, m := Q6KQ8.IntWeights(block, 16), Ones(256, 0);
    Q6KQ8.BlockIntIsDot(block, a, 16);
    assert a.qs[..256] == a.qs;
    ZeroDot(a.qs);
    Q4KQ8.TimesSum(0.0, a.d, 0, 0);
    AffineDot(d, 0.0, a.d, s, m, a.qs);
    forall j: nat | j < 256 ensures BlockTerms6(d, block, a)[j] == AffineTerms(d, 0.0, a.d, s, m, a.qs)[j] {
      IntWeightsAre(block, j);
      NothingSubtracted(d, s[j]);
    }
    assert BlockTerms6(d, block, a) == AffineTerms(d, 0.0, a.d, s, m, a.qs);
  }

  lemma Terms6Snoc(f16: Half, row: seq<u8>, input: seq<Q8KBlock>, n: nat)
    requires n < |input| && 210 * (n + 1) <= |row| && Q4KQ8.AllQ8K4(input)
    ensures var block := row[210 * n..210 * n + 210];
      Terms6(f16, row, input, n + 1) == Terms6(f16, row, input, n) + BlockTerms6(f16(block[208], block[209]), block, input[n])
  {
    hide Weight6, Times;
    var all, block := Terms6(f16, row, input, n + 1), row[210 * n..210 * n + 210];
    forall i | 256 * n <= i < 256 * n + 256
      ensures all[i] == BlockTerms6(f16(block[208], block[209]), block, input[n])[i - 256 * n]
    {
      BlockOf(n, i - 256 * n);
    }
  }

  /** Both six-bit kernels with byte activations, their float operations taken as real ones. */
  lemma {:induction false} Row6IsSum(f16: Half, row: seq<u8>, input: seq<Q8KBlock>, n: nat)
    requires n <= |input| && 210 * n <= |row| && Q4KQ8.AllQ8K4(input) && Q6KQ8.AllQ8K(input)
    ensures Q6KQ8.RowSum(RealOps(f16), row, input, n) == Total(Terms6(f16, row, input, n))
  {
    hide Q6KQ8.BlockInt, Terms6, BlockTerms6;
    if n == 0 {
      NoTerms6(f16, row, input);
    } else {
      Row6IsSum(f16, row, input, n - 1);
      var block := row[210 * (n - 1)..210 * (n - 1) + 210];
      var d := f16(block[208], block[209]);
      BlockTotal6(d, block, input[n - 1]);
      Terms6Snoc(f16, row, input, n - 1);
      TotalConcat(Terms6(f16, row, input, n - 1), BlockTerms6(d, block, input[n - 1]));
    }
  }

  lemma NoTerms6(f16: Half, row: seq<u8>, input: seq<Q8KBlock>)
    requires Q4KQ8.AllQ8K4(input)
    ensures Terms6(f16, row, input, 0) == []
  {
  }

  // ---------------------------------------------------------------------------
  // Six-bit rows against real inputs
  // ---------------------------------------------------------------------------

  /** Each dequantised value of a row is that weight. */
  lemma {:induction false} RowWeightAt(f16: Q6KFloat.F16, row: seq<u8>, n: nat, i: nat)
    requires 210 * n <= |row| && Q6KFloat.FiniteScales(f16, row) && i < 256 * n
    ensures 210 * (i / 256) + 210 <= |row|
    ensures var block := row[210 * (i / 256)..210 * (i / 256) + 210];
      && f16(block[208], block[209]).Some?
      && Q6KFloat.RowWeights6(f16, row, n)[i] == Weight6(f16(block[208], block[209]).value, block, i % 256)
  {
    hide Q6KFloat.BlockWeights, Weight6, Q6KFloat.FiniteScales;
    InRow(i, n, 210);
    if i < 256 * (n - 1) {
      RowWeightAt(f16, row, n - 1, i);
    } else {
      BlockOf(n - 1, i - 256 * (n - 1));
      var block := Q6K.BlockAt(row, n - 1);
      Q6KFloat.ScaleIsFinite(f16, row, n - 1);
      BlockWeightIs(block, f16(block[208], block[209]).value, i % 256);
    }
  }

  lemma BlockWeightIs(block: seq<u8>, d: real, j: nat)
    requires |block| == 210 && j < 256
    ensures Q6KFloat.BlockWeights(block, d)[j] == Weight6(d, block, j)
  {
    hide Q6KFloat.BlockWeights, Q6K.Levels, Level6;
    LevelsAre(block, j);
    Q6KFloat.BlockWeightAt(block, d, j);
    var s, v := Scale6(block, j), Level6(block, j) - 32;
    Associate(d, s, v);
  }

  lemma Associate(d: real, s: int, v: int)
    ensures d * s as real * v as real == d * (s * v) as real
  {
    var x, y := s as real, v as real;
    assert (s * v) as real == x * y;
    assert (d * x) * y == d * (x * y);
  }

  lemma {:induction false} DotIsTotal(w: seq<real>, x: seq<real>)
    requires |w| == |x|
    ensures Q6KFloat.DotR(w, x) == Total(seq(|w|, i requires 0 <= i < |w| => Times(w[i], x[i])))
  {
    hide Times, Q6KFloat.Mul;
    var v := seq(|w|, i requires 0 <= i < |w| => Times(w[i], x[i]));
    if w != [] {
      var n := |w| - 1;
      DotIsTotal(w[..n], x[..n]);
      assert v[..n] == seq(n, i requires 0 <= i < n => Times(w[..n][i], x[..n][i]));
      MulIsTimes(w[n], x[n]);
    }
  }

  lemma MulIsTimes(a: real, b: real)
    ensures Q6KFloat.Mul(a, b) == Times(a, b)
  {
  }

  // ---------------------------------------------------------------------------
  // Four-bit rows against real inputs
  // ---------------------------------------------------------------------------

  /** A vector operation lane by lane. */
  function Lanewise(f: (real, real) -> real, a: seq<real>, b: seq<real>): (r: seq<real>)
    ensures |r| == |a|
  {
    seq(|a|, i requires 0 <= i < |a| => if i < |b| then f(a[i], b[i]) else a[i])
  }

  /** The float kernels' vector operations as the real ones. */
  function RealSimd(f16: Half, width: nat): Q4KTiled.Simd<real, seq<real>> {
    Q4KTiled.Simd(width, f16, (d: real, n: int) => Times(d, n as real),
                  (x: real) => seq(width, _ => x), (q: seq<int>) => seq(|q|, i requires 0 <= i < |q| => q[i] as real),
                  (x: seq<real>) => x, seq(width, _ => 0.0),
                  (a: seq<real>, b: seq<real>) => Lanewise((x, y) => x + y, a, b),
                  (a: seq<real>, b: seq<real>) => Lanewise((x, y) => x - y, a, b),
                  (a: seq<real>, b: seq<real>) => Lanewise(Times, a, b),
                  (v: seq<real>) => Total(v))
  }

  /** Products of group `g`'s first `n` weights with their inputs. */
  function GroupTerms(f16: Half, block: seq<u8>, x: seq<real>, g: nat, from: nat, to: nat): (r: seq<real>)
    requires |block| == 144 && |x| == 256 && g < 8 && from <= to <= 32
    ensures |r| == to - from
  {
    seq(to - from, j requires 0 <= j < to - from => Times(Weight4(f16, block, 32 * g + from + j), x[32 * g + from + j]))
  }

  lemma GroupTermsJoin(f16: Half, block: seq<u8>, x: seq<real>, g: nat, from: nat, mid: nat, to: nat)
    requires |block| == 144 && |x| == 256 && g < 8 && from <= mid <= to <= 32
    ensures GroupTerms(f16, block, x, g, from, to) == GroupTerms(f16, block, x, g, from, mid) + GroupTerms(f16, block, x, g, mid, to)
    ensures Total(GroupTerms(f16, block, x, g, from, to))
         == Total(GroupTerms(f16, block, x, g, from, mid)) + Total(GroupTerms(f16, block, x, g, mid, to))
  {
    hide Weight4, Times, Total;
    assert GroupTerms(f16, block, x, g, from, to) == GroupTerms(f16, block, x, g, from, mid) + GroupTerms(f16, block, x, g, mid, to);
    TotalConcat(GroupTerms(f16, block, x, g, from, mid), GroupTerms(f16, block, x, g, mid, to));
  }

  lemma {:induction false} TotalAdds(a: seq<real>, b: seq<real>)
    requires |a| == |b|
    ensures Total(Lanewise((x, y) => x + y, a, b)) == Total(a) + Total(b)
  {
    var v := Lanewise((x, y) => x + y, a, b);
    if a != [] {
      var n := |a| - 1;
      TotalAdds(a[..n], b[..n]);
      assert v[..n] == Lanewise((x, y) => x + y, a[..n], b[..n]);
    }
  }

  /** Quants by a scale less a minimum, lane by lane. */
  lemma LaneWeight(f16: Half, width: nat, quants: seq<int>, scale: real, minimum: real, i: nat)
    requires |quants| == width && i < width
    ensures var m := RealSimd(f16, width);
      var w := Q4KTiled.Weights(m, quants, m.set1(scale), m.set1(minimum));
      |w| == width && w[i] == Times(quants[i] as real, scale) - minimum
  {
    hide Times;
  }

  /** A lane of a chunk's weights is the weight of its value. */
  lemma ChunkWeightAt(f16: Half, width: nat, block: seq<u8>, g: nat, offset: nat, i: nat)
    requires |block| == 144 && g < 8 && offset + width <= 32 && i < width
    ensures var w := Q4KTiled.ChunkWeights(RealSimd(f16, width), block, g, offset);
      |w| == width && w[i] == Weight4(f16, block, 32 * g + offset + i)
  {
    hide Q4KQ8.Quants, Q4KQ8.ScaleMin, Scale4, Min4, Quant4, Q4KTiled.Weights, Lanewise, Total, Times, Affine;
    var j := 32 * g + offset + i;
    assert j / 32 == g && j % 32 == offset + i;
    QuantsAre(block, j);
    ScalesAre(block, j);
    var quants := Q4KQ8.Quants(block, g)[offset..offset + width];
    var d, dmin := f16(block[0], block[1]), f16(block[2], block[3]);
    assert quants[i] == Quant4(block, j);
    LaneWeight(f16, width, quants, Times(d, Scale4(block, j) as real), Times(dmin, Min4(block, j) as real), i);
    Swapped(d, dmin, Scale4(block, j), Quant4(block, j), Min4(block, j));
  }

  lemma Swapped(d: real, dmin: real, s: int, q: int, min: int)
    ensures Times(q as real, Times(d, s as real)) - Times(dmin, min as real) == Affine(d, dmin, s * q, min)
  {
    var x, y := s as real, q as real;
    assert (s * q) as real == x * y;
    assert y * (d * x) == d * (x * y);
  }

  /** Accumulating a chunk adds its products. */
  lemma AccumulateAdds(f16: Half, width: nat, block: seq<u8>, x: seq<real>, g: nat, offset: nat, sum: seq<real>)
    requires |block| == 144 && |x| == 256 && g < 8 && offset + width <= 32 && |sum| == width
    ensures var m := RealSimd(f16, width);
      var at := 32 * g + offset;
      var r := Q4KTiled.Accumulate(m, sum, Q4KTiled.ChunkWeights(m, block, g, offset), x[at..at + width]);
      |r| == width && Total(r) == Total(sum) + Total(GroupTerms(f16, block, x, g, offset, offset + width))
  {
    hide Q4KTiled.ChunkWeights, Weight4, Times, Total;
    var m := RealSimd(f16, width);
    var at, w := 32 * g + offset, Q4KTiled.ChunkWeights(m, block, g, offset);
    var terms := GroupTerms(f16, block, x, g, offset, offset + width);
    if width > 0 { ChunkWeightAt(f16, width, block, g, offset, 0); }
    forall i | 0 <= i < width ensures Lanewise(Times, w, x[at..at + width])[i] == terms[i] {
      ChunkWeightAt(f16, width, block, g, offset, i);
    }
    if width == 0 { EmptyWeights(f16, block, g, offset); }
    assert Lanewise(Times, w, x[at..at + width]) == terms;
    TotalAdds(sum, terms);
  }

  lemma EmptyWeights(f16: Half, block: seq<u8>, g: nat, offset: nat)
    requires |block| == 144 && g < 8 && offset <= 32
    ensures Q4KTiled.ChunkWeights(RealSimd(f16, 0), block, g, offset) == []
  {
  }

  lemma {:induction false} ChunksAdd(f16: Half, width: nat, block: seq<u8>, x: seq<real>, band: nat, offset: nat, sum: seq<real>)
    requires |block| == 144 && |x| == 256 && band < 4 && Q4KTiled.IsBoundary(width, offset) && |sum| == width
    ensures var r := Q4KTiled.AfterChunks(RealSimd(f16, width), block, x, band, offset, sum);
      |r| == width && Total(r) == Total(sum) + Total(GroupTerms(f16, block, x, 2 * band, 0, offset))
                                + Total(GroupTerms(f16, block, x, 2 * band + 1, 0, offset))
    decreases offset
  {
    hide GroupTerms, Total, RealSimd, Q4KTiled.Accumulate, Q4KTiled.ChunkWeights;
    var m := RealSimd(f16, width);
    WidthOf(f16, width);
    if offset == 0 {
      NoGroupTerms(f16, block, x, 2 * band);
      NoGroupTerms(f16, block, x, 2 * band + 1);
    } else {
      var at, g, h := offset - width, 2 * band, 2 * band + 1;
      ChunksAdd(f16, width, block, x, band, at, sum);
      var before := Q4KTiled.AfterChunks(m, block, x, band, at, sum);
      AccumulateAdds(f16, width, block, x, g, at, before);
      var low := Q4KTiled.Accumulate(m, before, Q4KTiled.ChunkWeights(m, block, g, at), x[32 * g + at..32 * g + at + width]);
      AccumulateAdds(f16, width, block, x, h, at, low);
      GroupTermsJoin(f16, block, x, g, 0, at, offset);
      GroupTermsJoin(f16, block, x, h, 0, at, offset);
      assert 64 * band + at == 32 * g + at && 64 * band + 32 + at == 32 * h + at;
    }
  }

  lemma WidthOf(f16: Half, width: nat)
    ensures RealSimd(f16, width).width == width
  {
  }

  lemma NoGroupTerms(f16: Half, block: seq<u8>, x: seq<real>, g: nat)
    requires |block| == 144 && |x| == 256 && g < 8
    ensures Total(GroupTerms(f16, block, x, g, 0, 0)) == 0.0
  {
  }

  /** Products of a block's first `n` weights with their inputs. */
  function InputTerms(f16: Half, block: seq<u8>, x: seq<real>, n: nat): (r: seq<real>)
    requires |block| == 144 && |x| == 256 && n <= 256
    ensures |r| == n
  {
    seq(n, j requires 0 <= j < n => Times(Weight4(f16, block, j), x[j]))
  }

  lemma BandTerms(f16: Half, block: seq<u8>, x: seq<real>, n: nat)
    requires |block| == 144 && |x| == 256 && n < 4
    ensures Total(InputTerms(f16, block, x, 64 * n + 64))
         == Total(InputTerms(f16, block, x, 64 * n)) + Total(GroupTerms(f16, block, x, 2 * n, 0, 32))
          + Total(GroupTerms(f16, block, x, 2 * n + 1, 0, 32))
  {
    hide Weight4, Times, Total;
    var a, b, c := InputTerms(f16, block, x, 64 * n), GroupTerms(f16, block, x, 2 * n, 0, 32), GroupTerms(f16, block, x, 2 * n + 1, 0, 32);
    assert InputTerms(f16, block, x, 64 * n + 64) == a + b + c;
    TotalConcat(a, b);
    TotalConcat(a + b, c);
  }

  lemma {:induction false} BandsAdd(f16: Half, width: nat, block: seq<u8>, x: seq<real>, n: nat, sum: seq<real>)
    requires |block| == 144 && |x| == 256 && n <= 4 && Q4KTiled.IsWidth(width) && |sum| == width
    ensures var r := Q4KTiled.AfterBands(RealSimd(f16, width), block, x, n, sum);
      |r| == width && Total(r) == Total(sum) + Total(InputTerms(f16, block, x, 64 * n))
  {
    hide GroupTerms, Total, RealSimd, Q4KTiled.AfterChunks, InputTerms;
    WidthOf(f16, width);
    if n == 0 {
      NoInputTerms(f16, block, x);
    } else {
      BandsAdd(f16, width, block, x, n - 1, sum);
      ChunksAdd(f16, width, block, x, n - 1, 32, Q4KTiled.AfterBands(RealSimd(f16, width), block, x, n - 1, sum));
      BandTerms(f16, block, x, n - 1);
    }
  }

  lemma NoInputTerms(f16: Half, block: seq<u8>, x: seq<real>)
    requires |block| == 144 && |x| == 256
    ensures Total(InputTerms(f16, block, x, 0)) == 0.0
  {
  }

  /** Products of the weights of a row's first `n` blocks with their inputs. */
  function RowTerms4(f16: Half, row: seq<u8>, x: seq<real>, n: nat): (r: seq<real>)
    requires 144 * n <= |row| && 256 * n <= |x|
    ensures |r| == 256 * n
  {
    seq(256 * n, i requires 0 <= i < 256 * n =>
      InRow(i, n, 144);
      Times(Weight4(f16, row[144 * (i / 256)..144 * (i / 256) + 144], i % 256), x[i]))
  }

  lemma RowTerms4Snoc(f16: Half, row: seq<u8>, x: seq<real>, n: nat)
    requires 144 * (n + 1) <= |row| && 256 * (n + 1) <= |x|
    ensures RowTerms4(f16, row, x, n + 1)
         == RowTerms4(f16, row, x, n) + InputTerms(f16, row[144 * n..144 * n + 144], x[256 * n..256 * n + 256], 256)
  {
    hide Weight4, Times;
    var all, block := RowTerms4(f16, row, x, n + 1), row[144 * n..144 * n + 144];
    forall i | 256 * n <= i < 256 * n + 256
      ensures all[i] == InputTerms(f16, block, x[256 * n..256 * n + 256], 256)[i - 256 * n]
    {
      BlockOf(n, i - 256 * n);
    }
  }

  lemma {:induction false} BlocksAdd(f16: Half, width: nat, row: seq<u8>, x: seq<real>, n: nat)
    requires 144 * n <= |row| && 256 * n <= |x| && Q4KTiled.IsWidth(width)
    ensures var r := Q4KTiled.AfterBlocks(RealSimd(f16, width), row, x, n);
      |r| == width && Total(r) == Total(RowTerms4(f16, row, x, n))
  {
    hide Total, RealSimd, Q4KTiled.AfterBands, InputTerms, RowTerms4;
    WidthOf(f16, width);
    if n == 0 {
      NoRowTerms(f16, width, row, x);
    } else {
      BlocksAdd(f16, width, row, x, n - 1);
      var block, xs := row[144 * (n - 1)..144 * n], x[256 * (n - 1)..256 * n];
      BandsAdd(f16, width, block, xs, 4, Q4KTiled.AfterBlocks(RealSimd(f16, width), row, x, n - 1));
      RowTerms4Snoc(f16, row, x, n - 1);
      assert row[144 * (n - 1)..144 * (n - 1) + 144] == block && x[256 * (n - 1)..256 * (n - 1) + 256] == xs;
      TotalConcat(RowTerms4(f16, row, x, n - 1), InputTerms(f16, block, xs, 256));
    }
  }

  lemma {:induction false} NoRowTerms(f16: Half, width: nat, row: seq<u8>, x: seq<real>)
    requires Q4KTiled.IsWidth(width)
    ensures Total(RowTerms4(f16, row, x, 0)) == 0.0 && |RealSimd(f16, width).zero| == width && Total(RealSimd(f16, width).zero) == 0.0
  {
    Zeros(width);
    assert RealSimd(f16, width).zero == seq(width, _ => 0.0);
  }

  lemma {:induction false} Zeros(n: nat)
    ensures Total(seq(n, _ => 0.0)) == 0.0
  {
    if n > 0 {
      Zeros(n - 1);
      assert seq(n, _ => 0.0)[..n - 1] == seq(n - 1, _ => 0.0);
    }
  }

  /** The four-bit float kernel over the reals: the sum over every value of the row of weight times input. */
  lemma FloatRow4IsSum(f16: Half, width: nat, row: seq<u8>, x: seq<real>)
    requires Q4KTiled.IsRow(row, |x|) && Q4KTiled.IsWidth(width)
    ensures 144 * (|row| / 144) == |row| && 256 * (|row| / 144) == |x|
    ensures Q4KTiled.RowDot4(RealSimd(f16, width), row, x) == Total(RowTerms4(f16, row, x, |row| / 144))
  {
    hide Total, Q4KTiled.AfterBlocks, RowTerms4;
    BlocksAdd(f16, width, row, x, |row| / 144);
  }
}
