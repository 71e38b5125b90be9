/** Activations in blocks of 256 bytes with the sums of each group of sixteen. */
module Q8K {
  import opened I2sInt
  import Absmax

  const BLOCK_VALUES: nat := 256

  datatype Q8KBlock = Q8KBlock(d: real, qs: seq<int>, bsums: seq<int>)

  /** Quants of at most 127 in size, and group sums that are the sums of their groups. */
  predicate IsQ8K(b: Q8KBlock) {
    && |b.qs| == BLOCK_VALUES && |b.bsums| == 16
    && IsAct(b.qs)
    && forall g: nat :: g < 16 ==> b.bsums[g] == Sum(b.qs[16 * g..16 * g + 16])
  }

  /** Nearest integer, halves to the even one. */
  function RoundTiesEven(x: real): (q: int)
    ensures -0.5 <= x - q as real <= 0.5
  {
    var f := x.Floor;
    var rest := x - f as real;
    if rest < 0.5 then f else if rest > 0.5 then f + 1 else if f % 2 == 0 then f else f + 1
  }

  lemma HalvesGoEven(k: int)
    ensures RoundTiesEven((2 * k) as real + 0.5) == 2 * k
    ensures RoundTiesEven((2 * k) as real - 0.5) == 2 * k
  {
    assert ((2 * k) as real + 0.5).Floor == 2 * k;
    assert (2 * k) as real - 0.5 == (2 * k - 1) as real + 0.5;
    assert ((2 * k) as real - 0.5).Floor == 2 * k - 1;
  }

  function Quant(value: real, iscale: real): (q: int)
    ensures -127 <= q <= 127
  {
    Absmax.Clamp(RoundTiesEven(value * iscale), -127, 127)
  }

  /** No value is larger in size than the one at `k`, and none before it is as large. */
  predicate IsFirstLargest(input: seq<real>, k: nat) {
    && k < |input|
    && (forall j :: 0 <= j < |input| ==> Absmax.Abs(input[j]) <= Absmax.Abs(input[k]))
    && (forall j :: 0 <= j < k ==> Absmax.Abs(input[j]) < Absmax.Abs(input[k]))
  }

  /** The first value of largest size, and that size. */
  method SignedMax(input: seq<real>) returns (amax: real, max: real)
    ensures amax == Absmax.AbsMax(input) && Absmax.Abs(max) == amax
    ensures amax > 0.0 ==> exists k: nat :: IsFirstLargest(input, k) && input[k] == max
  {
    amax, max := 0.0, 0.0;
    ghost var k := 0;
    var i := 0;
    while i < |input|
      invariant 0 <= i <= |input|
      invariant amax == Absmax.AbsMax(input[..i]) && Absmax.Abs(max) == amax
      invariant amax > 0.0 ==> IsFirstLargest(input[..i], k) && input[k] == max
    {
      assert input[..i + 1][..i] == input[..i];
      var absolute := Absmax.Abs(input[i]);
      if absolute > amax {
        amax := absolute;
        max := input[i];
        k := i;
      }
      i := i + 1;
    }
    assert input[..i] == input;
  }

  lemma SmallSum(sum: int, quant: int, index: nat)
    requires -(127 * index) <= sum <= 127 * index && -127 <= quant <= 127 && index < 16
    ensures Wrap16(sum + quant) == sum + quant && -(127 * (index + 1)) <= sum + quant <= 127 * (index + 1)
  {
  }

  /** One group's quants and their sum, which a 16-bit integer holds. */
  method QuantizeGroup(input: seq<real>, iscale: real, group: nat, qs: array<int>) returns (sum: int)
    requires |input| == BLOCK_VALUES && qs.Length == BLOCK_VALUES && group < 16
    modifies qs
    ensures forall i :: 0 <= i < 16 * group ==> qs[i] == old(qs[i])
    ensures forall i :: 16 * group <= i < 16 * group + 16 ==> qs[i] == Quant(input[i], iscale)
    ensures sum == Sum(qs[16 * group..16 * group + 16]) && -2032 <= sum <= 2032
  {
    hide Quant, Sum, Wrap16;
    sum := 0;
    NoSum(qs[16 * group..16 * group]);
    var index := 0;
    while index < 16
      invariant 0 <= index <= 16
      invariant forall i :: 0 <= i < 16 * group ==> qs[i] == old(qs[i])
      invariant forall i :: 16 * group <= i < 16 * group + index ==> qs[i] == Quant(input[i], iscale)
      invariant sum == Sum(qs[16 * group..16 * group + index]) && -(127 * index) <= sum <= 127 * index
    {
      var at := 16 * group + index;
      var quant := Quant(input[at], iscale);
      ghost var before := qs[16 * group..at];
      qs[at] := quant;
      assert qs[16 * group..at + 1] == before + [quant];
      SumSnoc(before, quant);
      SmallSum(sum, quant, index);
      sum := Wrap16(sum + quant);
      index := index + 1;
    }
  }

  lemma NoSum(v: seq<int>)
    requires v == []
    ensures Sum(v) == 0
  {
  }

  /** The block whose scale and quants `max` fixes. */
  predicate ScaledBy(b: Q8KBlock, input: seq<real>, max: real)
    requires |input| == BLOCK_VALUES && max != 0.0
  {
    && |b.qs| == BLOCK_VALUES
    && b.d == 1.0 / (-127.0 / max)
    && forall i :: 0 <= i < BLOCK_VALUES ==> b.qs[i] == Quant(input[i], -127.0 / max)
  }

  /** The block of an input of zeros. */
  function ZeroQ8K(): Q8KBlock {
    Q8KBlock(0.0, seq(BLOCK_VALUES, _ => 0), seq(16, _ => 0))
  }

  /** The value the scale is taken from stands at -127 and reads back as itself. */
  lemma LargestIsExact(max: real)
    requires max != 0.0
    ensures Quant(max, -127.0 / max) == -127
    ensures Absmax.Dequant(-127, 1.0 / (-127.0 / max)) == max
  {
    assert max * (-127.0 / max) == -127.0;
    assert RoundTiesEven(-127.0) == -127;
    ScaleOfMax(max);
  }

  /**
    Quantise one block of 256 values: the scale is that of the first value of
    largest size, each quant is that value's, and the group sums are the quants' sums.
    */
  method QuantizeQ8KBlock(input: seq<real>) returns (b: Q8KBlock)
    requires |input| == BLOCK_VALUES
    ensures IsQ8K(b)
    ensures Absmax.AbsMax(input) == 0.0 ==> b == ZeroQ8K()
    ensures Absmax.AbsMax(input) > 0.0 ==>
      exists k: nat :: IsFirstLargest(input, k) && input[k] != 0.0 && ScaledBy(b, input, input[k])
    ensures forall i :: 0 <= i < BLOCK_VALUES ==>
      Absmax.Abs(input[i] - Absmax.Dequant(b.qs[i], b.d)) <= Absmax.AbsMax(input) / 254.0
  {
    hide Quant, Absmax.AbsMax, Absmax.Dequant, Sum;
    var amax, max := SignedMax(input);
    if amax == 0.0 {
      b := Q8KBlock(0.0, seq(BLOCK_VALUES, _ => 0), seq(16, _ => 0));
      ZeroBlock(b, input);
      return;
    }
    var iscale := -127.0 / max;
    var d := 1.0 / iscale;
    var qs := new int[BLOCK_VALUES](i => 0);
    var bsums: seq<int> := [];
    var group := 0;
    while group < 16
      invariant 0 <= group <= 16 && |bsums| == group
      invariant forall i :: 0 <= i < 16 * group ==> qs[i] == Quant(input[i], iscale)
      invariant forall g: nat :: g < group ==> bsums[g] == Sum(qs[..][16 * g..16 * g + 16])
    {
      ghost var before := qs[..];
      var sum := QuantizeGroup(input, iscale, group, qs);
      forall g: nat | g < group
        ensures bsums[g] == Sum(qs[..][16 * g..16 * g + 16])
      {
        assert before[16 * g..16 * g + 16] == qs[..][16 * g..16 * g + 16];
      }
      bsums := bsums + [sum];
      group := group + 1;
    }
    b := Q8KBlock(d, qs[..], bsums);
    forall i | 0 <= i < BLOCK_VALUES
      ensures -127 <= b.qs[i] <= 127
      ensures Absmax.Abs(input[i] - Absmax.Dequant(b.qs[i], b.d)) <= Absmax.AbsMax(input) / 254.0
    {
      QuantInRange(input[i], iscale);
      QuantError(input[i], max);
    }
    assert ScaledBy(b, input, max);
  }

  lemma QuantInRange(value: real, iscale: real)
    ensures -127 <= Quant(value, iscale) <= 127
  {
  }

  lemma ZeroBlock(b: Q8KBlock, input: seq<real>)
    requires |input| == BLOCK_VALUES && Absmax.AbsMax(input) == 0.0
    requires b == ZeroQ8K()
    ensures IsQ8K(b)
    ensures forall i :: 0 <= i < BLOCK_VALUES ==> Absmax.Abs(input[i] - Absmax.Dequant(b.qs[i], b.d)) <= 0.0
  {
    forall g: nat | g < 16 ensures b.bsums[g] == Sum(b.qs[16 * g..16 * g + 16]) {
      SumOfOnes(16, 0);
      assert b.qs[16 * g..16 * g + 16] == Ones(16, 0);
    }
    forall i | 0 <= i < BLOCK_VALUES ensures Absmax.Abs(input[i] - Absmax.Dequant(b.qs[i], b.d)) <= 0.0 {
      Absmax.ZeroTimes(0.0);
      assert Absmax.Abs(input[i]) <= 0.0;
    }
  }

  /** A quant read back is within half a step of the value, though the scale's sign is the largest value's. */
  lemma QuantError(value: real, max: real)
    requires max != 0.0 && Absmax.Abs(value) <= Absmax.Abs(max)
    ensures Absmax.Abs(value - Absmax.Dequant(Quant(value, -127.0 / max), 1.0 / (-127.0 / max))) <= Absmax.Abs(max) / 254.0
  {
    hide Absmax.Dequant, Quant;
    var q := Quant(value, -127.0 / max);
    var a, t := Offset(value, max, q), max / 127.0;
    OffBy(value, max, q);
    QuantClose(value, max);
    hide Offset;
    HalfStep(a, t);
    assert 127.0 * t == max;
  }

  /** How far a quant is from the value it stands for, in steps. */
  function Offset(value: real, max: real, q: int): real
    requires max != 0.0
  {
    q as real - value * (-127.0 / max)
  }

  /** What reading a quant back is off by, in steps. */
  lemma OffBy(value: real, max: real, q: int)
    requires max != 0.0
    ensures value - Absmax.Dequant(q, 1.0 / (-127.0 / max)) == Offset(value, max, q) * (max / 127.0)
  {
    hide Absmax.Dequant;
    var t, y := max / 127.0, value * (-127.0 / max);
    ScaleOfMax(max);
    DequantIs(q, -t);
    Unscale(value, max);
    Distribute(q as real, y, t);
    Negate(q as real, t);
  }

  lemma QuantClose(value: real, max: real)
    requires max != 0.0 && Absmax.Abs(value) <= Absmax.Abs(max)
    ensures -0.5 <= Offset(value, max, Quant(value, -127.0 / max)) <= 0.5
  {
    hide Quant;
    SignedProduct(value, max);
    Absmax.ScaledBound(if max > 0.0 then -value else value, if max > 0.0 then max else -max);
    QuantIsNearest(value, -127.0 / max);
  }

  lemma Unscale(value: real, max: real)
    requires max != 0.0
    ensures value * (-127.0 / max) * (max / 127.0) == -value
  {
    assert (-127.0 / max) * (max / 127.0) == -1.0 by {
      assert (-127.0 / max) * max == -127.0;
      assert (-127.0 / max) * (max / 127.0) == (-127.0 / max) * max / 127.0;
    }
    assert value * (-127.0 / max) * (max / 127.0) == value * ((-127.0 / max) * (max / 127.0));
  }

  lemma HalfStep(a: real, t: real)
    requires -0.5 <= a <= 0.5
    ensures Absmax.Abs(a * t) <= Absmax.Abs(127.0 * t) / 254.0
  {
    var u := if t >= 0.0 then t else -t;
    Within(a, u);
    var bound, au, p := 127.0 * u / 254.0, a * u, a * t;
    assert -bound <= au;
    assert au <= bound;
    assert p == (if t >= 0.0 then au else -au);
    assert Absmax.Abs(p) <= bound;
    assert 127.0 * u == Absmax.Abs(127.0 * t);
  }

  lemma Within(a: real, t: real)
    requires -0.5 <= a <= 0.5 && t >= 0.0
    ensures -(127.0 * t / 254.0) <= a * t <= 127.0 * t / 254.0
  {
    assert (0.5 - a) * t >= 0.0 && (a + 0.5) * t >= 0.0;
    assert (0.5 - a) * t == 127.0 * t / 254.0 - a * t;
    assert (a + 0.5) * t == a * t + 127.0 * t / 254.0;
  }

  lemma ScaleOfMax(max: real)
    requires max != 0.0
    ensures 1.0 / (-127.0 / max) == -(max / 127.0)
  {
    var k := -127.0 / max;
    assert k * max == -127.0;
    assert k * -(max / 127.0) == 1.0 by { assert k * -(max / 127.0) == -(k * max) / 127.0; }
    assert k != 0.0;
  }

  lemma SignedProduct(value: real, max: real)
    requires max != 0.0
    ensures value * (-127.0 / max)
         == (if max > 0.0 then -value else value) * (127.0 / (if max > 0.0 then max else -max))
  {
    if max > 0.0 {
      assert -127.0 / max == -(127.0 / max);
    } else {
      assert -127.0 / max == 127.0 / -max;
    }
  }

  lemma QuantIsNearest(value: real, iscale: real)
    requires -127.0 <= value * iscale <= 127.0
    ensures -0.5 <= value * iscale - Quant(value, iscale) as real <= 0.5
  {
  }

  lemma DequantIs(q: int, d: real)
    ensures Absmax.Dequant(q, d) == q as real * d
  {
  }

  lemma Distribute(y: real, q: real, s: real)
    ensures (y - q) * s == y * s - q * s
  {
  }

  lemma Negate(q: real, s: real)
    ensures q * -s == -(q * s)
  {
  }
}
