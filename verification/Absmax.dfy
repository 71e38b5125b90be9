/** Per-vector absmax quantisation to signed bytes, over the reals. */
module Absmax {
  import opened Transformer

  function Abs(x: real): real {
    if x < 0.0 then -x else x
  }

  /** Nearest integer, halves away from zero. */
  function Round(x: real): (q: int)
    ensures -0.5 <= x - q as real <= 0.5
  {
    if x >= 0.0 then (x + 0.5).Floor else -((-x + 0.5).Floor)
  }

  function Clamp(q: int, lo: int, hi: int): int {
    if q < lo then lo else if q > hi then hi else q
  }

  /** The largest absolute value, 0 for the empty vector. */
  function AbsMax(x: seq<real>): (a: real)
    ensures a >= 0.0
    ensures forall i :: 0 <= i < |x| ==> Abs(x[i]) <= a
  {
    if x == [] then 0.0 else
    var init := x[..|x| - 1];
    var rest := AbsMax(init);
    var last := Abs(x[|x| - 1]);
    assert forall i :: 0 <= i < |init| ==> x[i] == init[i];
    if last > rest then last else rest
  }

  /** One code: scaled by 127 over the absmax, rounded, clamped. */
  function Code(v: real, absmax: real): (q: int)
    requires absmax > 0.0
    ensures -127 <= q <= 127
  {
    Clamp(Round(v * (127.0 / absmax)), -127, 127)
  }

  /** Codes and scale of a vector; the zero vector keeps the given scale. */
  function Codes(x: seq<real>, zeroScale: real): (r: Row<real>)
    ensures |r.codes| == |x| && forall i :: 0 <= i < |x| ==> -127 <= r.codes[i] <= 127
  {
    var a := AbsMax(x);
    if a == 0.0 then Row(seq(|x|, _ => 0), zeroScale)
    else Row(seq(|x|, i requires 0 <= i < |x| => Code(x[i], a)), a / 127.0)
  }

  /** A code times its scale. */
  function Dequant(q: int, s: real): real {
    q as real * s
  }

  /** The cache's storage: a zero vector is stored with scale 0. */
  function CacheCodec(): Codec<real> {
    Codec(x => Codes(x, 0.0), (q, s) => Dequant(q, s))
  }

  lemma Cancel(absmax: real, v: real)
    requires absmax > 0.0
    ensures v * (127.0 / absmax) * (absmax / 127.0) == v
  {
    assert (127.0 / absmax) * (absmax / 127.0) == 1.0;
    assert v * (127.0 / absmax) * (absmax / 127.0) == v * ((127.0 / absmax) * (absmax / 127.0));
  }

  lemma Shrink(x: real, y: real, k: real)
    requires k > 0.0 && x <= y
    ensures x * k <= y * k
  {
  }

  lemma ScaledBound(v: real, absmax: real)
    requires absmax > 0.0 && Abs(v) <= absmax
    ensures -127.0 <= v * (127.0 / absmax) <= 127.0
  {
    var k := 127.0 / absmax;
    Shrink(v, absmax, k);
    Shrink(-absmax, v, k);
    assert absmax * k == 127.0;
  }

  /** A stored code read back is within half a step, absmax / 254, of the value. */
  lemma CodeError(v: real, absmax: real)
    requires absmax > 0.0 && Abs(v) <= absmax
    ensures Abs(v - Dequant(Code(v, absmax), absmax / 127.0)) <= absmax / 254.0
  {
    var y := v * (127.0 / absmax);
    var q := Code(v, absmax);
    ScaledBound(v, absmax);
    assert q == Round(y);
    Cancel(absmax, v);
    var s := absmax / 127.0;
    assert v - q as real * s == (y - q as real) * s;
    Shrink(y - q as real, 0.5, s);
    Shrink(-0.5, y - q as real, s);
    assert 0.5 * s == absmax / 254.0;
  }

  /** Every element of a vector survives the codes to within absmax / 254, whatever the zero scale. */
  lemma RowError(x: seq<real>, zeroScale: real, i: nat)
    requires i < |x|
    ensures Abs(x[i] - Dequant(Codes(x, zeroScale).codes[i], Codes(x, zeroScale).scale)) <= AbsMax(x) / 254.0
  {
    hide Dequant, Code;
    var a, r := AbsMax(x), Codes(x, zeroScale);
    assert Abs(x[i]) <= a;
    if a > 0.0 {
      assert r.codes[i] == Code(x[i], a) && r.scale == a / 127.0;
      CodeError(x[i], a);
    } else {
      assert r.codes[i] == 0 && x[i] == 0.0;
      ZeroTimes(r.scale);
    }
  }

  lemma ZeroTimes(s: real)
    ensures Dequant(0, s) == 0.0
  {
  }

  /** The absmax of a vector is the size of one of its elements. */
  lemma {:induction false} AbsMaxIsReached(x: seq<real>)
    requires x != []
    ensures exists i :: 0 <= i < |x| && Abs(x[i]) == AbsMax(x)
  {
    var n := |x| - 1;
    if AbsMax(x) == Abs(x[n]) {
    } else {
      AbsMaxIsReached(x[..n]);
      var i :| 0 <= i < n && Abs(x[..n][i]) == AbsMax(x[..n]);
      assert Abs(x[i]) == AbsMax(x);
    }
  }

  /** The element of largest size has code 127 or -127 and reads back as itself. */
  lemma LargestIsExact(x: seq<real>, zeroScale: real, i: nat)
    requires i < |x| && Abs(x[i]) == AbsMax(x)
    ensures Dequant(Codes(x, zeroScale).codes[i], Codes(x, zeroScale).scale) == x[i]
    ensures x[i] > 0.0 ==> Codes(x, zeroScale).codes[i] == 127
    ensures x[i] < 0.0 ==> Codes(x, zeroScale).codes[i] == -127
  {
    hide AbsMax;
    var a, v := AbsMax(x), x[i];
    if a == 0.0 {
      ZeroTimes(zeroScale);
    } else {
      var k := 127.0 / a;
      assert a * k == 127.0 && -a * k == -127.0;
      var q := if v > 0.0 then 127 else -127;
      assert Round(v * k) == q && Code(v, a) == q;
      Cancel(a, v);
    }
  }

  /** Halves go away from zero, whichever their sign. */
  lemma HalvesGoAway(k: int)
    requires k >= 0
    ensures Round(k as real + 0.5) == k + 1
    ensures Round(-(k as real) - 0.5) == -k - 1
  {
    assert k as real + 0.5 + 0.5 == (k + 1) as real;
  }

  /** A vector of zeros has codes 0 and the scale given for it. */
  lemma ZeroCodes(x: seq<real>, zeroScale: real)
    ensures AbsMax(x) == 0.0 ==> Codes(x, zeroScale) == Row(seq(|x|, _ => 0), zeroScale)
  {
  }

  /** The cache stores a vector of zeros with codes 0 and scale 0. */
  lemma ZerosAreStored(n: nat)
    ensures CacheCodec().quantise(seq(n, _ => 0.0)) == Row(seq(n, _ => 0), 0.0)
  {
    ZerosAbsMax(n);
  }

  lemma {:induction false} ZerosAbsMax(n: nat)
    ensures AbsMax(seq(n, _ => 0.0)) == 0.0
  {
    var x := seq(n, _ => 0.0);
    if n > 0 {
      assert x[..n - 1] == seq(n - 1, _ => 0.0);
      ZerosAbsMax(n - 1);
    }
  }

  /** The loop that finds the absmax, then the loop that pushes codes. */
  method AppendQuantised(x: seq<real>, codes: seq<int>, scales: seq<real>) returns (codes': seq<int>, scales': seq<real>)
    ensures codes' == codes + CacheCodec().quantise(x).codes
    ensures scales' == scales + [CacheCodec().quantise(x).scale]
  {
    var absmax := 0.0;
    var i := 0;
    while i < |x|
      invariant 0 <= i <= |x|
      invariant absmax == AbsMax(x[..i])
    {
      assert x[..i + 1][..i] == x[..i];
      absmax := if Abs(x[i]) > absmax then Abs(x[i]) else absmax;
      i := i + 1;
    }
    assert x[..i] == x;
    codes' := codes;
    if absmax == 0.0 {
      codes' := codes + seq(|x|, _ => 0);
      scales' := scales + [0.0];
      return;
    }
    i := 0;
    while i < |x|
      invariant 0 <= i <= |x|
      invariant codes' == codes + Codes(x, 0.0).codes[..i]
    {
      codes' := codes' + [Code(x[i], absmax)];
      i := i + 1;
    }
    scales' := scales + [absmax / 127.0];
  }
}
