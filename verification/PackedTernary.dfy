/**
  The ternary weight in every column of every row, straight from the packed bytes, and that
  every kernel's output is the scaled sum of weight times input.
  */
module PackedTernary {
  import opened I2s
  import opened I2sInt
  import opened I2sActivations
  import Absmax
  import Bits
  import Sums = RowWeights

  /** The bytes hold row `j` of a matrix `width` columns wide. */
  predicate HoldsRow(packed: seq<u8>, width: nat, j: nat) {
    width % QK == 0 && j * (width / 4) + width / 4 <= |packed|
  }

  /** The two bits of column `c`: each run of 32 bytes holds 128 columns, 32 to a pair of bits from the top. */
  function TwoBits(packed: seq<u8>, width: nat, j: nat, c: nat): nat
    requires HoldsRow(packed, width, j) && c < width
  {
    var byte := packed[j * (width / 4) + c / 128 * 32 + c % 32];
    var pair := c % 128 / 32;
    Bits.And(if pair == 3 then byte else Bits.Shr(byte, 6 - 2 * pair), 3)
  }

  /** Two bits stand for one less than their number; the spare pattern stands for zero. */
  function WeightAt(packed: seq<u8>, width: nat, j: nat, c: nat): int
    requires HoldsRow(packed, width, j) && c < width
  {
    var bits := TwoBits(packed, width, j, c);
    if bits == 3 then 0 else bits - 1
  }

  /** What the kernels take the weight of a column to be. */
  lemma RowWeightIs(packed: seq<u8>, width: nat, j: nat, c: nat)
    requires HoldsRow(packed, width, j) && c < width
    ensures RowWeights(packed, width, j)[c] == WeightAt(packed, width, j, c)
  {
    hide Bits.And, Bits.Shr, Code, Unpack, RowAt, PlaceOf;
    var row, p := RowAt(packed, width / 4, j), PlaceOf(c);
    UnpackAt(row, c);
    ByteOfColumn(packed, width, j, c);
    CodeIsShifted(row[32 * p.block + p.byte], p.code);
  }

  lemma ByteOfColumn(packed: seq<u8>, width: nat, j: nat, c: nat)
    requires HoldsRow(packed, width, j) && c < width
    ensures var p := PlaceOf(c);
      && p.code == c % 128 / 32 && 32 * p.block + p.byte < width / 4
      && RowAt(packed, width / 4, j)[32 * p.block + p.byte] == packed[j * (width / 4) + c / 128 * 32 + c % 32]
  {
    hide RowAt;
    BlockFits(width / 128, c);
    RowElement(packed, width / 4, j, c / 128 * 32 + c % 32);
  }

  lemma BlockFits(blocks: nat, c: nat)
    requires c < 128 * blocks
    ensures c / 128 * 32 + c % 32 < 32 * blocks == 128 * blocks / 4
  {
  }

  lemma RowElement(packed: seq<u8>, bytesPerRow: nat, j: nat, at: nat)
    requires j * bytesPerRow + bytesPerRow <= |packed| && at < bytesPerRow
    ensures RowAt(packed, bytesPerRow, j)[at] == packed[j * bytesPerRow + at]
  {
    var start := j * bytesPerRow;
    assert RowStart(bytesPerRow, j) == start;
    assert packed[start..start + bytesPerRow][at] == packed[start + at];
  }

  /** Weight times input, column by column. */
  function Terms(packed: seq<u8>, x: seq<real>, j: nat): (r: seq<real>)
    requires HoldsRow(packed, |x|, j)
    ensures |r| == |x|
  {
    seq(|x|, c requires 0 <= c < |x| => Term(WeightAt(packed, |x|, j, c), x[c]))
  }

  function Term(w: int, x: real): real {
    if w == 1 then x else if w == -1 then -x else 0.0
  }

  lemma TermIsTimes(w: int, x: real)
    requires -1 <= w <= 1
    ensures Times(w, x) == Term(w, x)
  {
    if w == 1 {
      assert 1.0 * x == x;
    } else if w == -1 {
      assert (-1) as real == -1.0 && -1.0 * x == -x;
    } else {
      assert w == 0 && 0.0 * x == 0.0;
    }
  }

  lemma {:induction false} DotIsTotal(w: seq<int>, x: seq<real>)
    requires |w| == |x| && IsTernary(w)
    ensures Dot(w, x) == Sums.Total(seq(|w|, c requires 0 <= c < |w| => Term(w[c], x[c])))
  {
    hide Times, Term;
    var v := seq(|w|, c requires 0 <= c < |w| => Term(w[c], x[c]));
    if w != [] {
      var n := |w| - 1;
      DotIsTotal(w[..n], x[..n]);
      assert v[..n] == seq(n, c requires 0 <= c < n => Term(w[..n][c], x[..n][c]));
      TermIsTimes(w[n], x[n]);
    }
  }

  lemma ProductIsTotal(packed: seq<u8>, x: seq<real>, j: nat)
    requires HoldsRow(packed, |x|, j)
    ensures RowProduct(packed, x, j) == Sums.Total(Terms(packed, x, j))
  {
    hide Term, WeightAt, Sums.Total, Dot, RowWeights;
    var w := RowWeights(packed, |x|, j);
    WeightsAreTernary(packed, |x|, j);
    DotIsTotal(w, x);
    forall c: nat | c < |x| ensures w[c] == WeightAt(packed, |x|, j, c) {
      RowWeightIs(packed, |x|, j, c);
    }
    assert Terms(packed, x, j) == seq(|w|, c requires 0 <= c < |w| => Term(w[c], x[c]));
  }

  lemma AcceptedHoldsRow(w: Weight, inputLen: nat, rows: nat, j: nat)
    requires AcceptsLonger(w, inputLen, rows) && j < rows
    ensures HoldsRow(w.packed, inputLen, j)
  {
    RowFits(w.packed, inputLen / 4, rows, j);
  }

  /** The exact kernels: each output is the weight scale times the row's sum. */
  lemma OutputIsSum(w: Weight, x: seq<real>, out: seq<real>, j: nat)
    requires Accepts(w, |x|, |out|) && IsProduct(w, x, out) && j < |out|
    ensures HoldsRow(w.packed, |x|, j)
    ensures out[j] == w.scale.value * Sums.Total(Terms(w.packed, x, j))
  {
    hide RowProduct, Terms, Sums.Total;
    AcceptedHoldsRow(w, |x|, |out|, j);
    ProductIsTotal(w.packed, x, j);
  }

  /** Activation `i` as the byte kernels see it: its code times their scale. */
  function Seen(x: seq<real>): (r: seq<real>)
    ensures |r| == |x|
  {
    seq(|x|, i requires 0 <= i < |x| => Acts(x)[i] as real * ActScale(x))
  }

  /** The byte-activation kernels, at widths they do not overflow: the same sum of the restored activations. */
  lemma ActOutputIsSum(w: Weight, x: seq<real>, out: seq<real>, j: nat)
    requires AcceptsLonger(w, |x|, |out|) && IsActProduct(w, x, out) && j < |out| && |x| <= MAX_WIDTH
    ensures HoldsRow(w.packed, |x|, j)
    ensures out[j] == w.scale.value * Sums.Total(Terms(w.packed, Seen(x), j))
  {
    hide RowProduct, Terms, Sums.Total, RowWeights, DotInt, Dot, Acts, ActScale, Wrap32;
    AcceptedHoldsRow(w, |x|, |out|, j);
    var weights, q, s := RowWeights(w.packed, |x|, j), Acts(x), ActScale(x);
    WeightsAreTernary(w.packed, |x|, j);
    PartialSumsFit(weights, q, |x|);
    assert weights[..|x|] == weights && q[..|x|] == q;
    DotRestored(weights, q, s);
    assert Restored(q, s) == Seen(x);
    ScaledTwice(w.scale.value, s, DotInt(weights, q) as real);
    ProductOfRow(w.packed, Seen(x), j);
    ProductIsTotal(w.packed, Seen(x), j);
  }

  lemma ProductOfRow(packed: seq<u8>, x: seq<real>, j: nat)
    requires |x| % QK == 0
    ensures RowProduct(packed, x, j) == Dot(RowWeights(packed, |x|, j), x)
  {
  }

  lemma SeenIs(x: seq<real>, i: nat)
    requires i < |x|
    ensures Seen(x)[i] == Absmax.Dequant(Absmax.Codes(x, 1.0).codes[i], Absmax.Codes(x, 1.0).scale)
  {
    var q, s := Acts(x)[i], ActScale(x);
    assert Seen(x)[i] == q as real * s;
  }

  /** The activations: nearest codes, the largest exactly, and a vector of zeros with scale 1. */
  lemma ActsAreNearest(x: seq<real>, i: nat)
    requires i < |x|
    ensures Absmax.Abs(x[i] - Seen(x)[i]) <= Absmax.AbsMax(x) / 254.0
    ensures Absmax.AbsMax(x) == 0.0 ==> Acts(x)[i] == 0 && ActScale(x) == 1.0
    ensures Absmax.AbsMax(x) == Absmax.Abs(x[i]) ==> Seen(x)[i] == x[i]
  {
    hide Absmax.AbsMax, Absmax.Code, Absmax.Abs, Absmax.Codes, Absmax.Dequant, Seen;
    SeenIs(x, i);
    Absmax.RowError(x, 1.0, i);
    if Absmax.AbsMax(x) == Absmax.Abs(x[i]) { Absmax.LargestIsExact(x, 1.0, i); }
    Absmax.ZeroCodes(x, 1.0);
  }
}
