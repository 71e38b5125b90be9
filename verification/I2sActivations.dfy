/**
  Matrix products with activations quantised to bytes: the two vector kernels from input to
  output, and how far their result can be from the exact one.
  */
module I2sActivations {
  import opened I2s
  import opened I2sInt
  import Absmax

  // ---------------------------------------------------------------------------
  // Quantising the input
  // ---------------------------------------------------------------------------

  /** The activations and scale of a vector; the zero vector has scale 1. */
  function Acts(x: seq<real>): (r: seq<int>)
    ensures |r| == |x| && IsAct(r)
  {
    Absmax.Codes(x, 1.0).codes
  }

  function ActScale(x: seq<real>): real {
    Absmax.Codes(x, 1.0).scale
  }

  /** The largest absolute value, then the codes, into the front of a reused buffer. */
  method QuantizeInputAbsmaxI8(input: seq<real>, out: array<int>) returns (scale: real)
    requires out.Length >= |input|
    modifies out
    ensures out[..|input|] == Acts(input) && scale == ActScale(input)
    ensures out[|input|..] == old(out[|input|..])
  {
    hide Absmax.AbsMax, Absmax.Code;
    var maxAbs := FindAbsmax(input);
    var i := 0;
    if maxAbs == 0.0 {
      while i < |input|
        invariant 0 <= i <= |input|
        invariant forall k :: 0 <= k < i ==> out[k] == 0
        invariant forall k :: |input| <= k < out.Length ==> out[k] == old(out[k])
      {
        out[i] := 0;
        i := i + 1;
      }
      return 1.0;
    }
    while i < |input|
      invariant 0 <= i <= |input|
      invariant forall k :: 0 <= k < i ==> out[k] == Absmax.Code(input[k], maxAbs)
      invariant forall k :: |input| <= k < out.Length ==> out[k] == old(out[k])
    {
      out[i] := Absmax.Code(input[i], maxAbs);
      i := i + 1;
    }
    scale := maxAbs / 127.0;
  }

  method FindAbsmax(input: seq<real>) returns (maxAbs: real)
    ensures maxAbs == Absmax.AbsMax(input)
  {
    maxAbs := 0.0;
    var i := 0;
    while i < |input|
      invariant 0 <= i <= |input|
      invariant maxAbs == Absmax.AbsMax(input[..i])
    {
      assert input[..i + 1][..i] == input[..i];
      var a := Absmax.Abs(input[i]);
      if a > maxAbs { maxAbs := a; }
      i := i + 1;
    }
    assert input[..i] == input;
  }

  // ---------------------------------------------------------------------------
  // The kernels
  // ---------------------------------------------------------------------------

  /** What row `j` comes to in 32-bit arithmetic. */
  function RowDot(packed: seq<u8>, q: seq<int>, j: nat): int
    requires |q| % QK == 0
  {
    Wrap32(DotInt(RowWeights(packed, |q|, j), q))
  }

  /** The output of a byte-activation kernel: each row's integer product by both scales. */
  ghost predicate IsActProduct(w: Weight, x: seq<real>, out: seq<real>) {
    && w.scale.Some? && |x| % QK == 0
    && forall j: nat :: j < |out| ==>
         out[j] == Scaled(Scaled(w.scale.value, ActScale(x)), RowDot(w.packed, Acts(x), j) as real)
  }

  lemma RowDotOfSlice(packed: seq<u8>, q: seq<int>, bytesPerRow: nat, rows: nat, j: nat)
    requires |q| == 4 * bytesPerRow && |q| % QK == 0 && bytesPerRow % BLOCK_BYTES == 0
    requires |packed| >= RowStart(bytesPerRow, rows) && j < rows
    ensures RowStart(bytesPerRow, j) + bytesPerRow <= |packed|
    ensures RowDot(packed, q, j)
         == Wrap32(DotInt(Unpack(packed[RowStart(bytesPerRow, j)..RowStart(bytesPerRow, j) + bytesPerRow]), q))
  {
    hide RowStart, Unpack, DotInt, Wrap32, RowAt;
    assert |q| / 4 == bytesPerRow;
    RowFits(packed, bytesPerRow, rows, j);
  }

  /** The SSE2 kernel takes packed bytes that run on past the last row. */
  predicate AcceptsLonger(w: Weight, inputLen: nat, outputLen: nat) {
    && |w.shape| == 2
    && inputLen == w.shape[0] && outputLen == w.shape[1]
    && inputLen > 0 && inputLen % QK == 0
    && |w.packed| >= RowStart(inputLen / 4, outputLen)
    && w.scale.Some?
  }

  lemma RowOfBlocks(w: Weight, inputLen: nat, outputLen: nat)
    requires AcceptsLonger(w, inputLen, outputLen)
    ensures w.scale.Some? && inputLen % QK == 0 && inputLen / 4 * 4 == inputLen && inputLen / 4 % BLOCK_BYTES == 0
    ensures |w.packed| >= RowStart(inputLen / 4, outputLen)
  {
  }

  method MatvecSse2(w: Weight, x: seq<real>, output: array<real>) returns (ok: bool)
    modifies output
    ensures ok == AcceptsLonger(w, |x|, output.Length)
    ensures !ok ==> output[..] == old(output[..])
    ensures ok ==> IsActProduct(w, x, output[..])
  {
    hide RowStart, RowDot, Scaled, DotInt, Unpack, Acts, ActScale, Wrap32, RowAt;
    ok := AcceptsLonger(w, |x|, output.Length);
    if !ok { return; }
    hide AcceptsLonger;
    var bytesPerRow := |x| / 4;
    RowOfBlocks(w, |x|, output.Length);
    var act := new int[|x|](i => 0);
    var inputScale := QuantizeInputAbsmaxI8(x, act);
    var q := act[..];
    assert q == Acts(x);
    var combined := Scaled(w.scale.value, inputScale);
    var j := 0;
    while j < output.Length
      invariant 0 <= j <= output.Length
      invariant forall i: nat :: i < j ==> output[i] == Scaled(combined, RowDot(w.packed, q, i) as real)
    {
      RowDotOfSlice(w.packed, q, bytesPerRow, output.Length, j);
      var start := RowStart(bytesPerRow, j);
      var dot := Sse2Row(w.packed[start..start + bytesPerRow], q);
      output[j] := Scaled(combined, dot as real);
      j := j + 1;
    }
  }

  lemma RowIsTernary(row: seq<u8>)
    requires |row| % BLOCK_BYTES == 0
    ensures IsTernary(Unpack(row))
  {
    hide Unpack;
    UnpackIsTernary(row);
  }

  lemma WidthFits(bytes: nat)
    requires bytes % BLOCK_BYTES == 0
    ensures (4 * bytes) % 16 == 0
  {
    assert bytes == 32 * (bytes / 32);
  }

  /** A row unpacked into the scratch buffer, then multiplied. */
  method NeonRow(row: seq<u8>, q: seq<int>, scratch: array<int>) returns (dot: int)
    requires |row| % BLOCK_BYTES == 0 && |q| == scratch.Length == 4 * |row| && IsAct(q)
    modifies scratch
    ensures dot == Wrap32(DotInt(Unpack(row), q))
  {
    hide *;
    UnpackRow(row, scratch);
    RowIsTernary(row);
    WidthFits(|row|);
    dot := NeonDot(scratch[..], q);
  }

  /** One chunk of up to 32 output rows, through one reused scratch row. */
  method NeonChunk(packed: seq<u8>, q: seq<int>, bytesPerRow: nat, combined: real, rowStart: nat, rowEnd: nat,
                   scratch: array<int>, output: array<real>)
    requires |q| % QK == 0 && IsAct(q) && |q| == 4 * bytesPerRow && bytesPerRow % BLOCK_BYTES == 0 && scratch.Length == |q|
    requires rowStart <= rowEnd <= output.Length && |packed| >= RowStart(bytesPerRow, output.Length)
    modifies scratch, output
    requires scratch != output as object
    ensures forall i: nat :: rowStart <= i < rowEnd ==>
      output[i] == Scaled(combined, RowDot(packed, q, i) as real)
    ensures forall i: nat :: i < rowStart ==> output[i] == old(output[i])
  {
    hide *;
    var j := rowStart;
    while j < rowEnd
      invariant rowStart <= j <= rowEnd
      invariant forall i: nat :: rowStart <= i < j ==> output[i] == Scaled(combined, RowDot(packed, q, i) as real)
      invariant forall i: nat :: i < rowStart ==> output[i] == old(output[i])
    {
      RowDotOfSlice(packed, q, bytesPerRow, output.Length, j);
      var start := RowStart(bytesPerRow, j);
      var row := packed[start..start + bytesPerRow];
      var dot := NeonRow(row, q, scratch);
      output[j] := Scaled(combined, dot as real);
      j := j + 1;
    }
  }

  method MatvecNeon(w: Weight, x: seq<real>, output: array<real>) returns (ok: bool)
    modifies output
    ensures ok == Accepts(w, |x|, output.Length)
    ensures !ok ==> output[..] == old(output[..])
    ensures ok ==> IsActProduct(w, x, output[..])
  {
    hide RowStart, RowDot, Scaled, DotInt, Unpack, Acts, ActScale;
    ok := Accepts(w, |x|, output.Length);
    if !ok { return; }
    var bytesPerRow := |x| / 4;
    var act := new int[|x|](i => 0);
    var inputScale := QuantizeInputAbsmaxI8(x, act);
    var q := act[..];
    assert q == Acts(x);
    var combined := Scaled(w.scale.value, inputScale);
    var scratch := new int[|x|](i => 0);
    var rowStart := 0;
    while rowStart < output.Length
      invariant 0 <= rowStart <= output.Length
      invariant forall i: nat :: i < rowStart ==> output[i] == Scaled(combined, RowDot(w.packed, q, i) as real)
    {
      var rowEnd := if rowStart + 32 <= output.Length then rowStart + 32 else output.Length;
      NeonChunk(w.packed, q, bytesPerRow, combined, rowStart, rowEnd, scratch, output);
      rowStart := rowEnd;
    }
  }

  // ---------------------------------------------------------------------------
  // The distance from the exact product
  // ---------------------------------------------------------------------------

  function NonZeros(w: seq<int>): nat {
    if w == [] then 0 else NonZeros(w[..|w| - 1]) + (if w[|w| - 1] == 0 then 0 else 1)
  }

  /** Dequantised activations. */
  function Restored(q: seq<int>, s: real): (r: seq<real>)
    ensures |r| == |q|
  {
    seq(|q|, i requires 0 <= i < |q| => Absmax.Dequant(q[i], s))
  }

  /** If each element is off by at most `e`, the product is off by at most `e` a non-zero weight. */
  lemma {:induction false} DotError(w: seq<int>, x: seq<real>, y: seq<real>, e: real)
    requires |w| == |x| == |y| && IsTernary(w) && e >= 0.0
    requires forall i :: 0 <= i < |w| ==> Absmax.Abs(x[i] - y[i]) <= e
    ensures Absmax.Abs(Dot(w, x) - Dot(w, y)) <= Scaled(e, NonZeros(w) as real)
  {
    if w != [] {
      var n := |w| - 1;
      DotError(w[..n], x[..n], y[..n], e);
      TermError(w[n], x[n], y[n], e);
      OneMore(e, NonZeros(w[..n]));
    }
  }

  lemma ZeroWeight(x: real)
    ensures Times(0, x) == 0.0
  {
    assert 0 as real * x == 0.0 * x;
  }

  lemma TermError(w: int, x: real, y: real, e: real)
    requires -1 <= w <= 1 && Absmax.Abs(x - y) <= e && e >= 0.0
    ensures Absmax.Abs(Times(w, x) - Times(w, y)) <= (if w == 0 then 0.0 else e)
  {
    if w == 1 {
      assert Times(w, x) == x && Times(w, y) == y;
    } else if w == -1 {
      assert Times(w, x) == -x && Times(w, y) == -y;
    } else {
      ZeroWeight(x);
      ZeroWeight(y);
    }
  }

  lemma OneMore(e: real, n: nat)
    ensures Scaled(e, (n + 1) as real) == Scaled(e, n as real) + e
    ensures Scaled(e, 0.0) == 0.0
  {
  }

  /** Restoring the activations and multiplying is multiplying and restoring. */
  lemma {:induction false} DotRestored(w: seq<int>, q: seq<int>, s: real)
    requires |w| == |q|
    ensures Dot(w, Restored(q, s)) == Scaled(s, DotInt(w, q) as real)
  {
    if w == [] {
    } else {
      var w', q' := w[..|w| - 1], q[..|q| - 1];
      DotRestored(w', q', s);
      assert Restored(q, s)[..|q| - 1] == Restored(q', s);
      assert Products(w, q)[..|w| - 1] == Products(w', q');
      TermRestored(w[|w| - 1], q[|q| - 1], s, DotInt(w', q'));
    }
  }

  lemma TermRestored(w: int, q: int, s: real, sum: int)
    ensures Scaled(s, sum as real) + Times(w, Absmax.Dequant(q, s)) == Scaled(s, (sum + w * q) as real)
  {
    var r := (w * q) as real;
    RealProduct(w, q);
    assert w as real * (q as real * s) == r * s;
    assert (sum + w * q) as real == sum as real + r;
  }

  lemma ScaledTwice(a: real, b: real, c: real)
    ensures Scaled(Scaled(a, b), c) == Scaled(a, Scaled(b, c))
  {
  }

  lemma ScaledError(scale: real, x: real, y: real, e: real)
    requires Absmax.Abs(x - y) <= e
    ensures Absmax.Abs(Scaled(scale, x) - Scaled(scale, y)) <= Scaled(Absmax.Abs(scale), e)
  {
    var d := x - y;
    assert scale * x - scale * y == scale * d;
    if scale >= 0.0 {
      MonotoneProduct(scale, d, e);
      MonotoneProduct(scale, -d, e);
    } else {
      MonotoneProduct(-scale, d, e);
      MonotoneProduct(-scale, -d, e);
    }
  }

  lemma MonotoneProduct(k: real, a: real, b: real)
    requires k >= 0.0 && a <= b
    ensures k * a <= k * b
  {
  }

  /**
    The byte-activation product of a row, in 32-bit arithmetic, against the exact one: at
    most half a quantisation step for each non-zero weight, times the weight scale.
    */
  lemma ActivationError(w: seq<int>, x: seq<real>, scale: real)
    requires |w| == |x| <= MAX_WIDTH && IsTernary(w)
    ensures Absmax.Abs(Scaled(Scaled(scale, ActScale(x)), Wrap32(DotInt(w, Acts(x))) as real) - Scaled(scale, Dot(w, x)))
         <= Scaled(Absmax.Abs(scale), Scaled(Absmax.AbsMax(x) / 254.0, NonZeros(w) as real))
  {
    hide Wrap32, DotInt, Dot, Scaled, NonZeros, Absmax.AbsMax, Absmax.Dequant, Absmax.Codes;
    var q, s := Acts(x), ActScale(x);
    PartialSumsFit(w, q, |w|);
    assert w[..|w|] == w && q[..|w|] == q;
    var y := Restored(q, s);
    var e := Absmax.AbsMax(x) / 254.0;
    forall i | 0 <= i < |w| ensures Absmax.Abs(y[i] - x[i]) <= e {
      Absmax.RowError(x, 1.0, i);
    }
    DotError(w, y, x, e);
    DotRestored(w, q, s);
    ScaledTwice(scale, s, DotInt(w, q) as real);
    ScaledError(scale, Dot(w, y), Dot(w, x), Scaled(e, NonZeros(w) as real));
  }

  lemma WeightsAreTernary(packed: seq<u8>, width: nat, j: nat)
    requires width % QK == 0
    ensures IsTernary(RowWeights(packed, width, j))
  {
    UnpackIsTernary(RowAt(packed, width / 4, j));
  }

  lemma OutputsAt(w: Weight, x: seq<real>, exact: seq<real>, fast: seq<real>, j: nat)
    requires IsProduct(w, x, exact) && IsActProduct(w, x, fast) && j < |exact| && j < |fast|
    ensures w.scale.Some? && |x| % QK == 0
    ensures exact[j] == Scaled(w.scale.value, Dot(RowWeights(w.packed, |x|, j), x))
    ensures fast[j] == Scaled(Scaled(w.scale.value, ActScale(x)), Wrap32(DotInt(RowWeights(w.packed, |x|, j), Acts(x))) as real)
  {
    hide Wrap32, DotInt, Dot, Scaled, RowWeights, Acts, ActScale;
  }

  /** Every output of either vector kernel is that close to the scalar kernel's. */
  lemma KernelsAreClose(w: Weight, x: seq<real>, exact: seq<real>, fast: seq<real>, j: nat)
    requires IsProduct(w, x, exact) && IsActProduct(w, x, fast)
    requires j < |exact| && j < |fast| && |x| <= MAX_WIDTH
    ensures Absmax.Abs(fast[j] - exact[j])
         <= Scaled(Absmax.Abs(w.scale.value),
                   Scaled(Absmax.AbsMax(x) / 254.0, NonZeros(RowWeights(w.packed, |x|, j)) as real))
  {
    hide Wrap32, DotInt, Dot, Scaled, NonZeros, Absmax.Abs, Absmax.AbsMax, RowWeights, Acts, ActScale, IsProduct, IsActProduct, IsTernary;
    OutputsAt(w, x, exact, fast, j);
    WeightsAreTernary(w.packed, |x|, j);
    ActivationError(RowWeights(w.packed, |x|, j), x, w.scale.value);
  }
}
