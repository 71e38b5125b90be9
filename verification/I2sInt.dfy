/**
  The integer kernels over the packed ternary weights: byte-sized activations, vector lanes
  with wrap-around, compressed sparse rows, and their distance from the exact product.
  */
module I2sInt {
  import opened I2s

  // ---------------------------------------------------------------------------
  // Machine integers
  // ---------------------------------------------------------------------------

  const I32_MODULUS: int := 0x1_0000_0000

  /** A value as a 32-bit signed addition leaves it. */
  function Wrap32(n: int): int {
    (n + 0x8000_0000) % I32_MODULUS - 0x8000_0000
  }

  function Wrap16(n: int): int {
    (n + 0x8000) % 0x1_0000 - 0x8000
  }

  function Wrap8(n: int): int {
    (n + 0x80) % 0x100 - 0x80
  }

  lemma WrapAdd(a: int, b: int)
    ensures Wrap32(Wrap32(a) + b) == Wrap32(a + b)
  {
  }

  lemma WrapIsIdentity(n: int)
    requires -0x8000_0000 <= n < 0x8000_0000
    ensures Wrap32(n) == n
  {
  }

  /** Activations as the quantiser leaves them: -128 never occurs. */
  predicate IsAct(q: seq<int>) {
    forall i :: 0 <= i < |q| ==> -127 <= q[i] <= 127
  }

  predicate IsTernary(w: seq<int>) {
    forall i :: 0 <= i < |w| ==> -1 <= w[i] <= 1
  }

  // ---------------------------------------------------------------------------
  // The integer dot product
  // ---------------------------------------------------------------------------

  function Sum(v: seq<int>): int {
    if v == [] then 0 else Sum(v[..|v| - 1]) + v[|v| - 1]
  }

  function Products(w: seq<int>, q: seq<int>): (r: seq<int>)
    requires |w| == |q|
    ensures |r| == |w|
  {
    seq(|w|, i requires 0 <= i < |w| => w[i] * q[i])
  }

  function DotInt(w: seq<int>, q: seq<int>): int
    requires |w| == |q|
  {
    Sum(Products(w, q))
  }

  lemma {:induction false} SumConcat(a: seq<int>, b: seq<int>)
    ensures Sum(a + b) == Sum(a) + Sum(b)
  {
    if b == [] {
      assert a + b == a;
    } else {
      SumConcat(a, b[..|b| - 1]);
      assert (a + b)[..|a + b| - 1] == a + b[..|b| - 1];
    }
  }

  lemma SumSnoc(v: seq<int>, x: int)
    ensures Sum(v + [x]) == Sum(v) + x
  {
    assert (v + [x])[..|v + [x]| - 1] == v;
  }

  function Reals(q: seq<int>): (r: seq<real>)
    ensures |r| == |q|
  {
    seq(|q|, i requires 0 <= i < |q| => q[i] as real)
  }

  /** Over integers the exact product is the integer one. */
  lemma {:induction false} DotOfReals(w: seq<int>, q: seq<int>)
    requires |w| == |q|
    ensures Dot(w, Reals(q)) == DotInt(w, q) as real
  {
    if w != [] {
      var w', q' := w[..|w| - 1], q[..|q| - 1];
      DotOfReals(w', q');
      assert Reals(q)[..|q| - 1] == Reals(q');
      assert Products(w, q)[..|w| - 1] == Products(w', q');
      RealProduct(w[|w| - 1], q[|q| - 1]);
    }
  }

  lemma RealProduct(a: int, b: int)
    ensures Times(a, b as real) == (a * b) as real
  {
  }

  lemma DotIntConcat(v: seq<int>, w: seq<int>, p: seq<int>, q: seq<int>)
    requires |v| == |p| && |w| == |q|
    ensures DotInt(v + w, p + q) == DotInt(v, p) + DotInt(w, q)
  {
    assert Products(v + w, p + q) == Products(v, p) + Products(w, q);
    SumConcat(Products(v, p), Products(w, q));
  }

  // ---------------------------------------------------------------------------
  // How large it can get
  // ---------------------------------------------------------------------------

  const MAX_WIDTH: nat := 16_909_320

  lemma {:induction false} SumBound(v: seq<int>, m: int)
    requires m >= 0
    requires forall i :: 0 <= i < |v| ==> -m <= v[i] <= m
    ensures -(m * |v|) <= Sum(v) <= m * |v|
  {
    if v != [] {
      SumBound(v[..|v| - 1], m);
      assert m * |v| == m * (|v| - 1) + m;
    }
  }

  lemma TernaryProducts(w: seq<int>, q: seq<int>)
    requires |w| == |q| && IsTernary(w) && IsAct(q)
    ensures forall i :: 0 <= i < |w| ==> -127 <= Products(w, q)[i] <= 127
  {
    forall i | 0 <= i < |w| ensures -127 <= w[i] * q[i] <= 127 {
      if w[i] == -1 { assert w[i] * q[i] == -q[i]; }
      else if w[i] == 0 { assert w[i] * q[i] == 0; }
      else { assert w[i] * q[i] == q[i]; }
    }
  }

  /** Up to the largest width the accumulator holds every partial sum exactly. */
  lemma PartialSumsFit(w: seq<int>, q: seq<int>, k: nat)
    requires |w| == |q| <= MAX_WIDTH && IsTernary(w) && IsAct(q) && k <= |w|
    ensures -(127 * k) <= DotInt(w[..k], q[..k]) <= 127 * k
    ensures Wrap32(DotInt(w[..k], q[..k])) == DotInt(w[..k], q[..k])
  {
    TernaryProducts(w[..k], q[..k]);
    SumBound(Products(w[..k], q[..k]), 127);
  }

  function Ones(n: nat, value: int): (r: seq<int>)
    ensures |r| == n && forall i :: 0 <= i < n ==> r[i] == value
  {
    seq(n, _ => value)
  }

  lemma {:induction false} SumOfOnes(n: nat, value: int)
    ensures Sum(Ones(n, value)) == value * n
  {
    if n > 0 {
      SumOfOnes(n - 1, value);
      assert Ones(n, value)[..n - 1] == Ones(n - 1, value);
      assert value * n == value * (n - 1) + value;
    }
  }

  ghost predicate NeverOverflows(width: nat) {
    forall w: seq<int>, q: seq<int> {:trigger DotInt(w, q)} ::
      |w| == |q| == width && IsTernary(w) && IsAct(q) ==> Wrap32(DotInt(w, q)) == DotInt(w, q)
  }

  /** The largest width is exactly that: one column more and a row of ones overflows. */
  lemma OverflowThreshold(width: nat)
    ensures NeverOverflows(width) <==> width <= MAX_WIDTH
  {
    if width <= MAX_WIDTH {
      forall w: seq<int>, q: seq<int> | |w| == |q| == width && IsTernary(w) && IsAct(q)
        ensures Wrap32(DotInt(w, q)) == DotInt(w, q)
      {
        PartialSumsFit(w, q, width);
        assert w[..width] == w && q[..width] == q;
      }
    } else {
      var w, q := Ones(width, 1), Ones(width, 127);
      assert Products(w, q) == Ones(width, 127);
      SumOfOnes(width, 127);
      assert DotInt(w, q) >= 0x8000_0000;
    }
  }

  // ---------------------------------------------------------------------------
  // Lanes
  // ---------------------------------------------------------------------------

  /** Lane-wise 32-bit addition. */
  function Add32(a: seq<int>, b: seq<int>): (r: seq<int>)
    requires |a| == |b|
    ensures |r| == |a|
  {
    seq(|a|, i requires 0 <= i < |a| => Wrap32(a[i] + b[i]))
  }

  lemma {:induction false} Add32Sum(a: seq<int>, b: seq<int>)
    requires |a| == |b|
    ensures Wrap32(Sum(Add32(a, b))) == Wrap32(Sum(a) + Sum(b))
  {
    if a != [] {
      var a', b', x, y := a[..|a| - 1], b[..|b| - 1], a[|a| - 1], b[|b| - 1];
      Add32Sum(a', b');
      assert Add32(a, b)[..|a| - 1] == Add32(a', b');
      var rest := Sum(Add32(a', b'));
      WrapAdd(x + y, rest);
      WrapAdd(rest, x + y);
      WrapAdd(Sum(a') + Sum(b'), x + y);
    }
  }

  /** Adding lanes to an accumulator whose sum is known up to wrap-around. */
  lemma Accumulated(acc: seq<int>, v: seq<int>, sum: int)
    requires |acc| == |v| && Wrap32(Sum(acc)) == Wrap32(sum)
    ensures Wrap32(Sum(Add32(acc, v))) == Wrap32(sum + Sum(v))
  {
    hide Wrap32, Add32, Sum;
    Add32Sum(acc, v);
    WrapAdd(Sum(acc), Sum(v));
    WrapAdd(sum, Sum(v));
  }

  /** The horizontal sum of four lanes. */
  function Reduce(v: seq<int>): int
    requires |v| == 4
  {
    Wrap32(Wrap32(Wrap32(v[0] + v[1]) + v[2]) + v[3])
  }

  lemma SumOfFour(a: int, b: int, c: int, d: int)
    ensures Sum([a, b, c, d]) == a + b + c + d
  {
    assert [a, b, c, d][..3] == [a, b, c] && [a, b, c][..2] == [a, b] && [a, b][..1] == [a];
    assert Sum([a]) == a;
    assert Sum([a, b]) == a + b;
    assert Sum([a, b, c]) == a + b + c;
  }

  lemma ReduceIsSum(v: seq<int>)
    requires |v| == 4
    ensures Reduce(v) == Wrap32(Sum(v))
  {
    hide Wrap32, Sum;
    assert v == [v[0], v[1], v[2], v[3]];
    SumOfFour(v[0], v[1], v[2], v[3]);
    WrapAdd(v[0] + v[1], v[2]);
    WrapAdd(v[0] + v[1] + v[2], v[3]);
  }

  // ---------------------------------------------------------------------------
  // SSE2
  // ---------------------------------------------------------------------------

  /** Compare masks pick the activation, its byte-sized negation, or zero. */
  function Select(w: seq<int>, x: seq<int>): (r: seq<int>)
    requires |w| == |x|
    ensures |r| == |w|
  {
    seq(|w|, i requires 0 <= i < |w| => if w[i] == 1 then x[i] else if w[i] == -1 then Wrap8(0 - x[i]) else 0)
  }

  /** Without -128 the selection is the product. */
  lemma SelectIsProduct(w: seq<int>, x: seq<int>)
    requires |w| == |x| && IsTernary(w) && IsAct(x)
    ensures Select(w, x) == Products(w, x)
  {
    forall i | 0 <= i < |w| ensures Select(w, x)[i] == w[i] * x[i] {
      if w[i] == 1 {
      } else if w[i] == -1 {
        assert w[i] * x[i] == -x[i];
      } else {
        assert w[i] == 0;
      }
    }
  }

  /** Multiply-add against ones: neighbouring lanes are added. */
  function PairSums(v: seq<int>): (r: seq<int>)
    requires |v| % 2 == 0
    ensures |r| == |v| / 2
  {
    if v == [] then [] else PairSums(v[..|v| - 2]) + [v[|v| - 2] + v[|v| - 1]]
  }

  lemma {:induction false} PairSumsKeepSum(v: seq<int>)
    requires |v| % 2 == 0
    ensures Sum(PairSums(v)) == Sum(v)
  {
    hide Sum;
    if v == [] {
    } else {
      var init, a, b := v[..|v| - 2], v[|v| - 2], v[|v| - 1];
      PairSumsKeepSum(init);
      SumSnoc(PairSums(init), a + b);
      SumSnoc(init, a);
      SumSnoc(init + [a], b);
      assert v == init + [a] + [b];
    }
  }

  /** Both halves of sixteen products folded into the accumulator. */
  lemma FoldedHalves(acc: seq<int>, prod: seq<int>, sum: int)
    requires |acc| == 4 && |prod| == 16 && Wrap32(Sum(acc)) == Wrap32(sum)
    ensures Wrap32(Sum(Add32(Add32(acc, PairSums(prod[..8])), PairSums(prod[8..])))) == Wrap32(sum + Sum(prod))
  {
    hide Wrap32, Add32, Sum, PairSums;
    PairSumsKeepSum(prod[..8]);
    PairSumsKeepSum(prod[8..]);
    SumConcat(prod[..8], prod[8..]);
    assert prod == prod[..8] + prod[8..];
    var first := Add32(acc, PairSums(prod[..8]));
    Accumulated(acc, PairSums(prod[..8]), sum);
    Accumulated(first, PairSums(prod[8..]), sum + Sum(prod[..8]));
  }

  lemma DotIntChunk(w: seq<int>, q: seq<int>, i: nat, n: nat)
    requires |w| == |q| && i + n <= |w|
    ensures DotInt(w[..i + n], q[..i + n]) == DotInt(w[..i], q[..i]) + Sum(Products(w[i..i + n], q[i..i + n]))
  {
    assert w[..i + n] == w[..i] + w[i..i + n] && q[..i + n] == q[..i] + q[i..i + n];
    DotIntConcat(w[..i], w[i..i + n], q[..i], q[i..i + n]);
  }

  method DotI8Ternary(w: seq<int>, act: seq<int>) returns (dot: int)
    requires |w| == |act| == QK && IsTernary(w) && IsAct(act)
    ensures dot == DotInt(w, act)
  {
    hide Wrap32, Sum, Products, Select, Add32, PairSums, Reduce;
    var acc := [0, 0, 0, 0];
    ZeroLanes(w, act);
    var i := 0;
    while i + 16 <= QK
      invariant 0 <= i <= QK && i % 16 == 0 && |acc| == 4
      invariant Wrap32(Sum(acc)) == Wrap32(DotInt(w[..i], act[..i]))
    {
      var prod := Select(w[i..i + 16], act[i..i + 16]);
      SelectIsProduct(w[i..i + 16], act[i..i + 16]);
      FoldedHalves(acc, prod, DotInt(w[..i], act[..i]));
      DotIntChunk(w, act, i, 16);
      var lo, hi := prod[..8], prod[8..];
      acc := Add32(acc, PairSums(lo));
      acc := Add32(acc, PairSums(hi));
      i := i + 16;
    }
    assert w[..i] == w && act[..i] == act;
    ReduceIsSum(acc);
    PartialSumsFit(w, act, QK);
    dot := Reduce(acc);
  }

  lemma ZeroLanes(w: seq<int>, act: seq<int>)
    requires |w| == |act|
    ensures Wrap32(Sum([0, 0, 0, 0])) == Wrap32(DotInt(w[..0], act[..0])) == 0
  {
    SumOfFour(0, 0, 0, 0);
  }

  /** One row, block by block, each unpacked and multiplied. */
  method Sse2Row(row: seq<u8>, act: seq<int>) returns (dot: int)
    requires |row| % BLOCK_BYTES == 0 && |act| == 4 * |row| && IsAct(act)
    ensures dot == Wrap32(DotInt(Unpack(row), act))
  {
    hide Wrap32, DotInt, Unpack, UnpackBlock;
    dot := 0;
    EmptyRow(row, act);
    var bk := 0;
    while bk < |row| / BLOCK_BYTES
      invariant 0 <= bk <= |row| / BLOCK_BYTES
      invariant dot == Wrap32(DotInt(Unpack(row[..32 * bk]), act[..128 * bk]))
    {
      var block := row[32 * bk..32 * bk + 32];
      var unpacked := new int[QK](i => 0);
      UnpackBlockInto(block, 0, unpacked);
      assert unpacked[0..128] == unpacked[..];
      BlockIsTernary(block);
      var part := DotI8Ternary(unpacked[..], act[128 * bk..128 * bk + 128]);
      NextBlock(row, act, bk);
      WrapAdd(DotInt(Unpack(row[..32 * bk]), act[..128 * bk]), part);
      dot := Wrap32(dot + part);
      bk := bk + 1;
    }
    assert row[..32 * bk] == row && act[..128 * bk] == act;
  }

  lemma EmptyRow(row: seq<u8>, act: seq<int>)
    ensures Wrap32(DotInt(Unpack(row[..0]), act[..0])) == 0
  {
  }

  lemma BlockIsTernary(block: seq<u8>)
    requires |block| == BLOCK_BYTES
    ensures IsTernary(UnpackBlock(block))
  {
    forall i | 0 <= i < 128 ensures -1 <= UnpackBlock(block)[i] <= 1 {
      UnpackBlockAt(block, i);
    }
  }

  lemma NextBlock(row: seq<u8>, act: seq<int>, bk: nat)
    requires |row| % BLOCK_BYTES == 0 && |act| == 4 * |row| && 32 * bk + 32 <= |row|
    ensures DotInt(Unpack(row[..32 * (bk + 1)]), act[..128 * (bk + 1)])
         == DotInt(Unpack(row[..32 * bk]), act[..128 * bk])
          + DotInt(UnpackBlock(row[32 * bk..32 * bk + 32]), act[128 * bk..128 * bk + 128])
  {
    hide DotInt, Unpack, UnpackBlock;
    var done, block := row[..32 * bk], row[32 * bk..32 * bk + 32];
    assert row[..32 * (bk + 1)] == done + block;
    assert act[..128 * (bk + 1)] == act[..128 * bk] + act[128 * bk..128 * bk + 128];
    UnpackAppend(done, block);
    DotIntConcat(Unpack(done), UnpackBlock(block), act[..128 * bk], act[128 * bk..128 * bk + 128]);
  }

  // ---------------------------------------------------------------------------
  // NEON
  // ---------------------------------------------------------------------------

  /** Widening multiply: each byte product in a 16-bit lane. */
  function WideningMultiply(w: seq<int>, x: seq<int>): (r: seq<int>)
    requires |w| == |x|
    ensures |r| == |w|
  {
    seq(|w|, i requires 0 <= i < |w| => Wrap16(w[i] * x[i]))
  }

  lemma WideningIsProduct(w: seq<int>, x: seq<int>)
    requires |w| == |x| && IsTernary(w) && IsAct(x)
    ensures WideningMultiply(w, x) == Products(w, x)
  {
    TernaryProducts(w, x);
    forall i | 0 <= i < |w| ensures WideningMultiply(w, x)[i] == Products(w, x)[i] {
      assert Products(w, x)[i] == w[i] * x[i];
    }
  }

  /** One accumulator takes two groups of four products. */
  function AddTwo(acc: seq<int>, p: seq<int>, q: seq<int>): (r: seq<int>)
    requires |acc| == |p| == |q|
    ensures |r| == |acc|
  {
    Add32(Add32(acc, p), q)
  }

  lemma TwoGroups(acc: seq<int>, p: seq<int>, q: seq<int>, pq: int)
    requires |acc| == |p| == |q| == 4 && pq == Sum(p) + Sum(q)
    ensures Wrap32(Sum(AddTwo(acc, p, q))) == Wrap32(Sum(acc) + pq)
  {
    hide Wrap32, Add32, Sum;
    var sum, mid := Sum(acc), Add32(acc, p);
    Accumulated(acc, p, sum);
    var next := sum + Sum(p);
    Accumulated(mid, q, next);
    assert next + Sum(q) == sum + pq;
  }

  lemma SumOfQuarters(prod: seq<int>)
    requires |prod| == 16
    ensures Sum(prod) == Sum(prod[..4]) + Sum(prod[4..8]) + (Sum(prod[8..12]) + Sum(prod[12..]))
  {
    hide Sum;
    assert prod == prod[..8] + prod[8..] && prod[..8] == prod[..4] + prod[4..8] && prod[8..] == prod[8..12] + prod[12..];
    SumConcat(prod[..8], prod[8..]);
    SumConcat(prod[..4], prod[4..8]);
    SumConcat(prod[8..12], prod[12..]);
  }

  /** Two accumulators, four lanes each, sixteen products a step. */
  lemma WidenedQuarters(acc0: seq<int>, acc1: seq<int>, prod: seq<int>, sum: int)
    requires |acc0| == |acc1| == 4 && |prod| == 16 && Wrap32(Sum(acc0) + Sum(acc1)) == Wrap32(sum)
    ensures Wrap32(Sum(AddTwo(acc0, prod[..4], prod[4..8])) + Sum(AddTwo(acc1, prod[8..12], prod[12..])))
         == Wrap32(sum + Sum(prod))
  {
    hide *;
    SumOfQuarters(prod);
    var s0, s1 := Sum(prod[..4]) + Sum(prod[4..8]), Sum(prod[8..12]) + Sum(prod[12..]);
    TwoGroups(acc0, prod[..4], prod[4..8], s0);
    TwoGroups(acc1, prod[8..12], prod[12..], s1);
    WrapCross(Sum(AddTwo(acc0, prod[..4], prod[4..8])), Sum(AddTwo(acc1, prod[8..12], prod[12..])),
              Sum(acc0), Sum(acc1), s0, s1, sum);
  }

  lemma WrapCross(n0: int, n1: int, a0: int, a1: int, s0: int, s1: int, sum: int)
    requires Wrap32(n0) == Wrap32(a0 + s0) && Wrap32(n1) == Wrap32(a1 + s1) && Wrap32(a0 + a1) == Wrap32(sum)
    ensures Wrap32(n0 + n1) == Wrap32(sum + (s0 + s1))
  {
    hide Wrap32;
    WrapBoth(n0, a0 + s0, n1, a1 + s1);
    assert a0 + s0 + (a1 + s1) == (a0 + a1) + (s0 + s1);
    WrapBoth(a0 + a1, sum, s0 + s1, s0 + s1);
  }

  lemma WrapBoth(a: int, b: int, c: int, d: int)
    requires Wrap32(a) == Wrap32(b) && Wrap32(c) == Wrap32(d)
    ensures Wrap32(a + c) == Wrap32(b + d)
  {
    hide Wrap32;
    WrapAdd(a, c);
    WrapAdd(b, c);
    WrapAdd(c, b);
    WrapAdd(d, b);
  }

  method NeonDot(w: seq<int>, x: seq<int>) returns (dot: int)
    requires |w| == |x| && |w| % 16 == 0 && IsTernary(w) && IsAct(x)
    ensures dot == Wrap32(DotInt(w, x))
  {
    hide Wrap32, Sum, Products, WideningMultiply, Add32, AddTwo, Reduce;
    var acc0, acc1 := [0, 0, 0, 0], [0, 0, 0, 0];
    TwoZeroLanes(w, x);
    var i := 0;
    while i + 16 <= |w|
      invariant 0 <= i <= |w| && i % 16 == 0 && |acc0| == |acc1| == 4
      invariant Wrap32(Sum(acc0) + Sum(acc1)) == Wrap32(DotInt(w[..i], x[..i]))
    {
      var prodLo := WideningMultiply(w[i..i + 8], x[i..i + 8]);
      var prodHi := WideningMultiply(w[i + 8..i + 16], x[i + 8..i + 16]);
      ghost var prod := prodLo + prodHi;
      ChunkProducts(w, x, i);
      WidenedQuarters(acc0, acc1, prod, DotInt(w[..i], x[..i]));
      DotIntChunk(w, x, i, 16);
      assert prodLo[..4] == prod[..4] && prodLo[4..] == prod[4..8] && prodHi[..4] == prod[8..12] && prodHi[4..] == prod[12..];
      acc0 := AddTwo(acc0, prodLo[..4], prodLo[4..]);
      acc1 := AddTwo(acc1, prodHi[..4], prodHi[4..]);
      i := i + 16;
    }
    assert w[..i] == w && x[..i] == x;
    Add32Sum(acc0, acc1);
    ReduceIsSum(Add32(acc0, acc1));
    dot := Reduce(Add32(acc0, acc1));
  }

  lemma TwoZeroLanes(w: seq<int>, x: seq<int>)
    requires |w| == |x|
    ensures Wrap32(Sum([0, 0, 0, 0]) + Sum([0, 0, 0, 0])) == Wrap32(DotInt(w[..0], x[..0]))
  {
    SumOfFour(0, 0, 0, 0);
  }

  lemma ChunkProducts(w: seq<int>, x: seq<int>, i: nat)
    requires |w| == |x| && i + 16 <= |w| && IsTernary(w) && IsAct(x)
    ensures WideningMultiply(w[i..i + 8], x[i..i + 8]) + WideningMultiply(w[i + 8..i + 16], x[i + 8..i + 16])
         == Products(w[i..i + 16], x[i..i + 16])
  {
    hide WideningMultiply;
    WideningIsProduct(w[i..i + 8], x[i..i + 8]);
    WideningIsProduct(w[i + 8..i + 16], x[i + 8..i + 16]);
  }
}
