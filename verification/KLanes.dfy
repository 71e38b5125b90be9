/** 256-bit integer lanes as the block kernels use them, with their saturation and wrap-around. */
module KLanes {
  import opened I2sInt

  predicate Bounded(v: seq<int>, m: int) {
    forall i :: 0 <= i < |v| ==> -m <= v[i] <= m
  }

  /** Unsigned weights: levels or nibbles. */
  predicate InRange(v: seq<int>, top: int) {
    forall i :: 0 <= i < |v| ==> 0 <= v[i] <= top
  }

  function Saturate16(n: int): int {
    if n < -0x8000 then -0x8000 else if n > 0x7fff then 0x7fff else n
  }

  function Saturated(v: seq<int>): (r: seq<int>)
    ensures |r| == |v|
  {
    seq(|v|, i requires 0 <= i < |v| => Saturate16(v[i]))
  }

  function Wrapped(v: seq<int>): (r: seq<int>)
    ensures |r| == |v|
  {
    seq(|v|, i requires 0 <= i < |v| => Wrap32(v[i]))
  }

  /** Unsigned by signed bytes, neighbours added with saturation to 16 bits. */
  function MaddUbs(w: seq<int>, q: seq<int>): (r: seq<int>)
    requires |w| == |q| && |w| % 2 == 0
    ensures |r| == |w| / 2
  {
    Saturated(PairSums(Products(w, q)))
  }

  /** 16-bit products, neighbours added into 32 bits. */
  function Madd(a: seq<int>, b: seq<int>): (r: seq<int>)
    requires |a| == |b| && |a| % 2 == 0
    ensures |r| == |a| / 2
  {
    Wrapped(PairSums(Products(a, b)))
  }

  lemma ProductBound(a: int, b: int, m: int, n: int)
    requires -m <= a <= m && -n <= b <= n && m >= 0 && n >= 0
    ensures -(m * n) <= a * b <= m * n
  {
    assert (m - a) * (n + b) >= 0 && (m + a) * (n - b) >= 0;
    assert (m - a) * (n - b) >= 0 && (m + a) * (n + b) >= 0;
  }

  lemma ProductsBounded(v: seq<int>, w: seq<int>, m: int, n: int)
    requires |v| == |w| && Bounded(v, m) && Bounded(w, n) && m >= 0 && n >= 0
    ensures Bounded(Products(v, w), m * n)
  {
    forall i | 0 <= i < |v| ensures -(m * n) <= v[i] * w[i] <= m * n {
      ProductBound(v[i], w[i], m, n);
    }
  }

  lemma {:induction false} PairSumsBounded(v: seq<int>, m: int)
    requires |v| % 2 == 0 && Bounded(v, m)
    ensures Bounded(PairSums(v), 2 * m)
  {
    if v != [] { PairSumsBounded(v[..|v| - 2], m); }
  }

  /** Small weights by activations never saturate. */
  lemma MaddUbsIsExact(w: seq<int>, q: seq<int>, top: int)
    requires |w| == |q| && |w| % 2 == 0 && InRange(w, top) && IsAct(q) && 0 <= top <= 127
    ensures MaddUbs(w, q) == PairSums(Products(w, q)) && Bounded(MaddUbs(w, q), 2 * (top * 127))
  {
    ProductsBounded(w, q, top, 127);
    PairSumsBounded(Products(w, q), top * 127);
    assert 2 * (top * 127) <= 0x7fff;
  }

  lemma MaddIsExact(a: seq<int>, b: seq<int>, m: int, n: int)
    requires |a| == |b| && |a| % 2 == 0 && Bounded(a, m) && Bounded(b, n) && m >= 0 && n >= 0
    requires m * n < 0x4000_0000
    ensures Madd(a, b) == PairSums(Products(a, b))
  {
    ProductsBounded(a, b, m, n);
    PairSumsBounded(Products(a, b), m * n);
    var v := PairSums(Products(a, b));
    forall i | 0 <= i < |v| ensures Wrap32(v[i]) == v[i] {
    }
  }

  lemma {:induction false} PairSumsConcat(a: seq<int>, b: seq<int>)
    requires |a| % 2 == 0 && |b| % 2 == 0
    ensures PairSums(a + b) == PairSums(a) + PairSums(b)
  {
    if b == [] {
      assert a + b == a;
    } else {
      PairSumsConcat(a, b[..|b| - 2]);
      assert (a + b)[..|a + b| - 2] == a + b[..|b| - 2];
    }
  }

  /** A constant factor comes out of a sum of products. */
  lemma {:induction false} ScaledSum(v: seq<int>, s: int)
    ensures Sum(Products(v, Ones(|v|, s))) == s * Sum(v)
  {
    if v != [] {
      var n := |v| - 1;
      ScaledSum(v[..n], s);
      assert Products(v, Ones(|v|, s))[..n] == Products(v[..n], Ones(n, s));
      assert s * (Sum(v[..n]) + v[n]) == s * Sum(v[..n]) + v[n] * s;
    }
  }

  /** All lanes added, left to right, in 32 bits. */
  function Reduce8(v: seq<int>): int {
    if v == [] then 0 else Wrap32(Reduce8(v[..|v| - 1]) + v[|v| - 1])
  }

  lemma {:induction false} Reduce8IsSum(v: seq<int>)
    ensures Reduce8(v) == Wrap32(Sum(v))
  {
    if v != [] {
      Reduce8IsSum(v[..|v| - 1]);
      WrapAdd(Sum(v[..|v| - 1]), v[|v| - 1]);
    }
  }

  /** A 32-lane weighted sum: the products of one half by one scale, of the other by another. */
  lemma TwoScales(w: seq<int>, q: seq<int>, low: int, high: int, top: int)
    requires |w| == |q| == 32 && InRange(w, top) && IsAct(q) && 0 <= top <= 127 && -128 <= low <= 127 && -128 <= high <= 127
    ensures Sum(Madd(MaddUbs(w, q), Ones(8, low) + Ones(8, high)))
         == low * DotInt(w[..16], q[..16]) + high * DotInt(w[16..], q[16..])
  {
    hide Sum, Products, PairSums, MaddUbs, Madd;
    MaddUbsIsExact(w, q, top);
    var pairs := MaddUbs(w, q);
    var p0, p1 := Products(w[..16], q[..16]), Products(w[16..], q[16..]);
    ProductsOfHalves(w, q);
    PairSumsConcat(p0, p1);
    var a, b := PairSums(p0), PairSums(p1);
    assert pairs == a + b;
    ScaleBound(Ones(8, low) + Ones(8, high), low, high);
    assert 2 * (top * 127) <= 32258;
    assert 2 * (top * 127) * 128 < 0x4000_0000;
    MaddIsExact(pairs, Ones(8, low) + Ones(8, high), 2 * (top * 127), 128);
    PairSumsKeepSum(Products(pairs, Ones(8, low) + Ones(8, high)));
    ProductsConcat(a, b, Ones(8, low), Ones(8, high));
    SumConcat(Products(a, Ones(8, low)), Products(b, Ones(8, high)));
    ScaledSum(a, low);
    ScaledSum(b, high);
    PairSumsKeepSum(p0);
    PairSumsKeepSum(p1);
  }

  lemma ProductsOfHalves(w: seq<int>, q: seq<int>)
    requires |w| == |q| == 32
    ensures Products(w, q) == Products(w[..16], q[..16]) + Products(w[16..], q[16..])
  {
  }

  lemma ProductsConcat(a: seq<int>, b: seq<int>, c: seq<int>, d: seq<int>)
    requires |a| == |c| && |b| == |d|
    ensures Products(a + b, c + d) == Products(a, c) + Products(b, d)
  {
  }

  lemma ScaleBound(v: seq<int>, low: int, high: int)
    requires v == Ones(8, low) + Ones(8, high) && -128 <= low <= 127 && -128 <= high <= 127
    ensures Bounded(v, 128)
  {
  }

  /** Lane sums as integers, however large. */
  function Plus(a: seq<int>, b: seq<int>): (r: seq<int>)
    requires |a| == |b|
    ensures |r| == |a|
  {
    seq(|a|, i requires 0 <= i < |a| => a[i] + b[i])
  }

  lemma PlusBounded(a: seq<int>, b: seq<int>, m: int, n: int)
    requires |a| == |b| && Bounded(a, m) && Bounded(b, n)
    ensures Bounded(Plus(a, b), m + n)
  {
  }

  lemma {:induction false} PlusSum(a: seq<int>, b: seq<int>)
    requires |a| == |b|
    ensures Sum(Plus(a, b)) == Sum(a) + Sum(b)
  {
    if a != [] {
      var n := |a| - 1;
      PlusSum(a[..n], b[..n]);
      assert Plus(a, b)[..n] == Plus(a[..n], b[..n]);
    }
  }

  /** Lane additions that stay in range do not wrap. */
  lemma Add32IsPlus(a: seq<int>, b: seq<int>, m: int, n: int)
    requires |a| == |b| && Bounded(a, m) && Bounded(b, n) && m >= 0 && n >= 0 && m + n < 0x8000_0000
    ensures Add32(a, b) == Plus(a, b)
  {
    forall i | 0 <= i < |a| ensures Add32(a, b)[i] == a[i] + b[i] {
      WrapIsIdentity(a[i] + b[i]);
    }
  }

  /** A value an operation of 32-bit integers may produce without overflow. */
  predicate Fits32(n: int) {
    -0x8000_0000 <= n < 0x8000_0000
  }

  /** No addition of the horizontal sum overflows. */
  lemma {:induction false} Reduce8Exact(v: seq<int>, m: int)
    requires Bounded(v, m) && m >= 0 && m * |v| < 0x8000_0000
    ensures Reduce8(v) == Sum(v) && -(m * |v|) <= Sum(v) <= m * |v| && Fits32(Sum(v))
  {
    if v != [] {
      var n := |v| - 1;
      assert m * |v| == m * n + m;
      Reduce8Exact(v[..n], m);
      WrapIsIdentity(Sum(v));
    }
  }

  /** The two multiply-adds of 32 weights as integers, however large. */
  function ScaledPairs(w: seq<int>, q: seq<int>, scales: seq<int>): (r: seq<int>)
    requires |w| == |q| == 32 && |scales| == 16
    ensures |r| == 8
  {
    PairSums(Products(PairSums(Products(w, q)), scales))
  }

  /** Neither multiply-add saturates or wraps, and each lane stays within its bound. */
  lemma ScaledPairsExact(w: seq<int>, q: seq<int>, scales: seq<int>, top: int, m: int)
    requires |w| == |q| == 32 && |scales| == 16 && InRange(w, top) && IsAct(q) && Bounded(scales, m)
    requires 0 <= top <= 127 && 0 <= m <= 128
    ensures MaddUbs(w, q) == PairSums(Products(w, q)) && Bounded(MaddUbs(w, q), 2 * (top * 127)) && 2 * (top * 127) <= 0x7fff
    ensures Madd(MaddUbs(w, q), scales) == ScaledPairs(w, q, scales)
    ensures Bounded(ScaledPairs(w, q, scales), 2 * (2 * (top * 127) * m))
  {
    hide MaddUbs, Madd, PairSums, Products;
    MaddUbsIsExact(w, q, top);
    var pairs := MaddUbs(w, q);
    assert 2 * (top * 127) <= 32258;
    ProductBound(2 * (top * 127), m, 32258, 128);
    MaddIsExact(pairs, scales, 2 * (top * 127), m);
    ProductsBounded(pairs, scales, 2 * (top * 127), m);
    PairSumsBounded(Products(pairs, scales), 2 * (top * 127) * m);
  }
}
