/**
  Six-bit weight blocks of 210 bytes: how 256 levels are packed into 192 of them, and the
  three decoders that read them back.
  */
module Q6K {
  import opened I2s
  import Bits

  const BLOCK_BYTES6: nat := 210
  const VALUES: nat := 256

  predicate IsLevels(levels: seq<int>) {
    |levels| == VALUES && forall i :: 0 <= i < VALUES ==> 0 <= levels[i] < 64
  }

  // ---------------------------------------------------------------------------
  // Where a level is
  // ---------------------------------------------------------------------------

  /** Index of byte `l` of lane `lane` in half `half` of a block's values. */
  function At(half: nat, lane: nat, l: nat): nat {
    128 * half + 32 * lane + l
  }

  /** The four low bits: from the byte 32 on for odd lanes, the upper nibble for the last two. */
  function Nibble(block: seq<u8>, half: nat, lane: nat, l: nat): (r: nat)
    requires |block| >= 192 && half < 2 && lane < 4 && l < 32
    ensures r < 16
  {
    var b := block[64 * half + l + (if lane % 2 == 0 then 0 else 32)];
    if lane < 2 then b % 16 else b / 16
  }

  /** The two high bits. */
  function HighBits(block: seq<u8>, half: nat, lane: nat, l: nat): (r: nat)
    requires |block| >= 192 && half < 2 && lane < 4 && l < 32
    ensures r < 4
  {
    var b := block[128 + 32 * half + l];
    if lane == 0 then b % 4 else if lane == 1 then b / 4 % 4 else if lane == 2 then b / 16 % 4 else b / 64
  }

  function LevelAt(block: seq<u8>, half: nat, lane: nat, l: nat): (r: int)
    requires |block| >= 192 && half < 2 && lane < 4 && l < 32
    ensures 0 <= r < 64
  {
    Nibble(block, half, lane, l) + 16 * HighBits(block, half, lane, l)
  }

  /** The levels of one lane of one half. */
  function LaneLevels(block: seq<u8>, half: nat, lane: nat): (r: seq<int>)
    requires |block| >= 192 && half < 2 && lane < 4
    ensures |r| == 32
    ensures forall l :: 0 <= l < 32 ==> r[l] == LevelAt(block, half, lane, l) && 0 <= r[l] < 64
  {
    seq(32, l requires 0 <= l < 32 => LevelAt(block, half, lane, l))
  }

  function HalfLevels(block: seq<u8>, half: nat): (r: seq<int>)
    requires |block| >= 192 && half < 2
    ensures |r| == 128
    ensures forall l :: 0 <= l < 32 ==>
      && r[l] == LevelAt(block, half, 0, l) && r[l + 32] == LevelAt(block, half, 1, l)
      && r[l + 64] == LevelAt(block, half, 2, l) && r[l + 96] == LevelAt(block, half, 3, l)
  {
    LaneLevels(block, half, 0) + LaneLevels(block, half, 1) + LaneLevels(block, half, 2) + LaneLevels(block, half, 3)
  }

  /** A block's 256 levels in order. */
  function Levels(block: seq<u8>): (r: seq<int>)
    requires |block| >= 192
    ensures |r| == VALUES
  {
    HalfLevels(block, 0) + HalfLevels(block, 1)
  }

  lemma LevelsAt(block: seq<u8>, half: nat, lane: nat, l: nat)
    requires |block| >= 192 && half < 2 && lane < 4 && l < 32
    ensures Levels(block)[At(half, lane, l)] == LevelAt(block, half, lane, l)
  {
    hide LevelAt;
    assert Levels(block)[128 * half + (32 * lane + l)] == HalfLevels(block, half)[32 * lane + l];
  }

  /** Every index is one place. */
  lemma Places(i: nat)
    requires i < VALUES
    ensures i / 128 < 2 && i % 128 / 32 < 4 && i % 32 < 32 && At(i / 128, i % 128 / 32, i % 32) == i
  {
    var r := i % 128;
    assert i == 32 * (4 * (i / 128) + r / 32) + r % 32;
    Remainder(4 * (i / 128) + r / 32, r % 32);
  }

  lemma LevelsAreLevels(block: seq<u8>)
    requires |block| >= 192
    ensures IsLevels(Levels(block))
  {
    forall i: nat | i < VALUES ensures 0 <= Levels(block)[i] < 64 {
      Places(i);
      LevelsAt(block, i / 128, i % 128 / 32, i % 32);
    }
  }

  /** The unpacking loop. */
  method UnpackBlockLevels(block: seq<u8>, levels: array<int>)
    requires |block| >= 192 && levels.Length == VALUES
    modifies levels
    ensures levels[..] == Levels(block)
  {
    hide LevelAt, HalfLevels;
    var half := 0;
    while half < 2
      invariant 0 <= half <= 2
      invariant half >= 1 ==> levels[..128] == HalfLevels(block, 0)
      invariant half == 2 ==> levels[128..] == HalfLevels(block, 1)
    {
      UnpackHalf(block, half, levels);
      half := half + 1;
    }
    assert levels[..] == levels[..128] + levels[128..];
  }

  method UnpackHalf(block: seq<u8>, half: nat, levels: array<int>)
    requires |block| >= 192 && levels.Length == VALUES && half < 2
    modifies levels
    ensures levels[128 * half..128 * half + 128] == HalfLevels(block, half)
    ensures half == 1 ==> levels[..128] == old(levels[..128])
  {
    hide LevelAt, HalfLevels, FourLevels, Bits.And, Bits.Or, Bits.Shl, Bits.Shr;
    var output := 128 * half;
    var index := 0;
    NoLevels(block, half, levels[output..output + 128]);
    while index < 32
      invariant 0 <= index <= 32
      invariant half == 1 ==> levels[..128] == old(levels[..128])
      invariant FourLevels(block, half, levels[output..output + 128], index)
    {
      ghost var before := levels[output..output + 128];
      var low13, low24, high := block[64 * half + index], block[64 * half + index + 32], block[128 + 32 * half + index];
      levels[output + index] := Bits.Or(Bits.And(low13, 15), Bits.Shl(Bits.And(high, 3), 4));
      levels[output + index + 32] := Bits.Or(Bits.And(low24, 15), Bits.Shl(Bits.And(Bits.Shr(high, 2), 3), 4));
      levels[output + index + 64] := Bits.Or(Bits.Shr(low13, 4), Bits.Shl(Bits.And(Bits.Shr(high, 4), 3), 4));
      levels[output + index + 96] := Bits.Or(Bits.Shr(low24, 4), Bits.Shl(Bits.And(Bits.Shr(high, 6), 3), 4));
      DecodedLevels(block, half, index);
      MoreLevels(block, half, before, levels[output..output + 128], index);
      index := index + 1;
    }
    FourLevelsMakeHalf(block, half, levels[output..output + 128]);
  }

  lemma NoLevels(block: seq<u8>, half: nat, values: seq<int>)
    requires |block| >= 192 && half < 2 && |values| == 128
    ensures FourLevels(block, half, values, 0)
  {
  }

  lemma MoreLevels(block: seq<u8>, half: nat, before: seq<int>, after: seq<int>, l: nat)
    requires |block| >= 192 && half < 2 && |before| == 128 && l < 32
    requires FourLevels(block, half, before, l)
    requires after == before[l := LevelAt(block, half, 0, l)][l + 32 := LevelAt(block, half, 1, l)]
                            [l + 64 := LevelAt(block, half, 2, l)][l + 96 := LevelAt(block, half, 3, l)]
    ensures FourLevels(block, half, after, l + 1)
  {
    hide LevelAt;
  }

  /** The shifts and masks all three decoders take the three bytes of a column apart with. */
  lemma DecodedLevels(block: seq<u8>, half: nat, l: nat)
    requires |block| >= 192 && half < 2 && l < 32
    ensures var low13, low24, high := block[64 * half + l], block[64 * half + l + 32], block[128 + 32 * half + l];
      && Bits.Or(Bits.And(low13, 15), Bits.Shl(Bits.And(high, 3), 4)) == LevelAt(block, half, 0, l)
      && Bits.Or(Bits.And(low24, 15), Bits.Shl(Bits.And(Bits.Shr(high, 2), 3), 4)) == LevelAt(block, half, 1, l)
      && Bits.Or(Bits.Shr(low13, 4), Bits.Shl(Bits.And(Bits.Shr(high, 4), 3), 4)) == LevelAt(block, half, 2, l)
      && Bits.Or(Bits.Shr(low24, 4), Bits.Shl(Bits.And(Bits.Shr(high, 6), 3), 4)) == LevelAt(block, half, 3, l)
  {
    hide LevelAt, Bits.And, Bits.Or, Bits.Shl, Bits.Shr;
    LevelBits(block, half, l);
    var low13, low24, high := block[64 * half + l], block[64 * half + l + 32], block[128 + 32 * half + l];
    Bits.LowNibble(low13);
    Bits.LowNibble(low24);
    Bits.Shifts(low13);
    Bits.Shifts(low24);
    Bits.Shifts(high);
    Bits.LowPair(high);
    Bits.LowPair(Bits.Shr(high, 2));
    Bits.LowPair(Bits.Shr(high, 4));
    Bits.LowPair(Bits.Shr(high, 6));
    Bits.NibblesJoin(low13 % 16, high % 4);
    Bits.NibblesJoin(low24 % 16, high / 4 % 4);
    Bits.NibblesJoin(low13 / 16, high / 16 % 4);
    Bits.NibblesJoin(low24 / 16, high / 64);
  }

  lemma LevelBits(block: seq<u8>, half: nat, l: nat)
    requires |block| >= 192 && half < 2 && l < 32
    ensures var low13, low24, high := block[64 * half + l], block[64 * half + l + 32], block[128 + 32 * half + l];
      && LevelAt(block, half, 0, l) == low13 % 16 + 16 * (high % 4)
      && LevelAt(block, half, 1, l) == low24 % 16 + 16 * (high / 4 % 4)
      && LevelAt(block, half, 2, l) == low13 / 16 + 16 * (high / 16 % 4)
      && LevelAt(block, half, 3, l) == low24 / 16 + 16 * (high / 64)
  {
  }

  predicate FourLevels(block: seq<u8>, half: nat, values: seq<int>, n: nat)
    requires |block| >= 192 && half < 2 && |values| == 128 && n <= 32
  {
    forall l :: 0 <= l < n ==>
      && values[l] == LevelAt(block, half, 0, l) && values[l + 32] == LevelAt(block, half, 1, l)
      && values[l + 64] == LevelAt(block, half, 2, l) && values[l + 96] == LevelAt(block, half, 3, l)
  }

  lemma FourLevelsMakeHalf(block: seq<u8>, half: nat, values: seq<int>)
    requires |block| >= 192 && half < 2 && |values| == 128 && FourLevels(block, half, values, 32)
    ensures values == HalfLevels(block, half)
  {
    hide LevelAt;
    assert values[..32] == LaneLevels(block, half, 0);
    assert values[32..64] == LaneLevels(block, half, 1);
    assert values[64..96] == LaneLevels(block, half, 2);
    assert values[96..] == LaneLevels(block, half, 3);
    assert values == values[..32] + values[32..64] + values[64..96] + values[96..];
  }

  // ---------------------------------------------------------------------------
  // Packing
  // ---------------------------------------------------------------------------

  lemma LevelSplits(level: int)
    requires 0 <= level < 64
    ensures level == level % 16 + 16 * (level / 16) && 0 <= level / 16 < 4
  {
  }

  /** Two low nibbles in a byte. */
  function JoinLow(p: int, q: int): (b: u8) {
    p % 16 + 16 * (q % 16)
  }

  /** Four pairs of high bits in a byte. */
  function JoinHigh(p: int, q: int, r: int, s: int): (b: u8)
    requires 0 <= p < 64 && 0 <= q < 64 && 0 <= r < 64 && 0 <= s < 64
  {
    LevelSplits(p);
    LevelSplits(q);
    LevelSplits(r);
    LevelSplits(s);
    p / 16 + 4 * (q / 16) + 16 * (r / 16) + 64 * (s / 16)
  }

  /** The shifts and masks the packing loop joins four levels with. */
  lemma JoinedBytes(q1: u8, q2: u8, q3: u8, q4: u8)
    requires q1 < 64 && q2 < 64 && q3 < 64 && q4 < 64
    ensures Bits.Or(Bits.And(q1, 15), Bits.Shl(Bits.And(q3, 15), 4)) == JoinLow(q1, q3)
    ensures Bits.Or(Bits.And(q2, 15), Bits.Shl(Bits.And(q4, 15), 4)) == JoinLow(q2, q4)
    ensures Bits.Or(Bits.Or(Bits.Or(Bits.Shr(q1, 4), Bits.Shl(Bits.Shr(q2, 4), 2)), Bits.Shl(Bits.Shr(q3, 4), 4)),
                    Bits.Shl(Bits.Shr(q4, 4), 6)) == JoinHigh(q1, q2, q3, q4)
  {
    hide Bits.And, Bits.Or, Bits.Shl, Bits.Shr;
    Bits.LowNibble(q1);
    Bits.LowNibble(q2);
    Bits.LowNibble(q3);
    Bits.LowNibble(q4);
    Bits.Shifts(q1);
    Bits.Shifts(q2);
    Bits.Shifts(q3);
    Bits.Shifts(q4);
    Bits.NibblesJoin(q1 % 16, q3 % 16);
    Bits.NibblesJoin(q2 % 16, q4 % 16);
    Bits.PairsJoin(q1 / 16, q2 / 16, q3 / 16, q4 / 16);
  }

  /** A byte of two low nibbles. */
  function LowByte(levels: seq<int>, half: nat, odd: nat, l: nat): (b: u8)
    requires IsLevels(levels) && half < 2 && odd < 2 && l < 32
  {
    JoinLow(levels[At(half, odd, l)], levels[At(half, odd + 2, l)])
  }

  /** A byte of four pairs of high bits. */
  function HighByte(levels: seq<int>, half: nat, l: nat): (b: u8)
    requires IsLevels(levels) && half < 2 && l < 32
  {
    JoinHigh(levels[At(half, 0, l)], levels[At(half, 1, l)], levels[At(half, 2, l)], levels[At(half, 3, l)])
  }

  function LowBytes(levels: seq<int>, half: nat, odd: nat): (r: seq<u8>)
    requires IsLevels(levels) && half < 2 && odd < 2
    ensures |r| == 32 && forall l :: 0 <= l < 32 ==> r[l] == LowByte(levels, half, odd, l)
  {
    seq(32, l requires 0 <= l < 32 => LowByte(levels, half, odd, l))
  }

  function HighBytes(levels: seq<int>, half: nat): (r: seq<u8>)
    requires IsLevels(levels) && half < 2
    ensures |r| == 32 && forall l :: 0 <= l < 32 ==> r[l] == HighByte(levels, half, l)
  {
    seq(32, l requires 0 <= l < 32 => HighByte(levels, half, l))
  }

  /** The 192 bytes that hold the levels. */
  function Packed(levels: seq<int>): (r: seq<u8>)
    requires IsLevels(levels)
    ensures |r| == 192
  {
    LowBytes(levels, 0, 0) + LowBytes(levels, 0, 1) + LowBytes(levels, 1, 0) + LowBytes(levels, 1, 1)
    + HighBytes(levels, 0) + HighBytes(levels, 1)
  }

  lemma PackedAt(levels: seq<int>, half: nat, l: nat)
    requires IsLevels(levels) && half < 2 && l < 32
    ensures Packed(levels)[64 * half + l] == LowByte(levels, half, 0, l)
    ensures Packed(levels)[64 * half + l + 32] == LowByte(levels, half, 1, l)
    ensures Packed(levels)[128 + 32 * half + l] == HighByte(levels, half, l)
  {
    hide LowByte, HighByte;
  }

  lemma LowJoined(p: int, q: int)
    ensures JoinLow(p, q) % 16 == p % 16 && JoinLow(p, q) / 16 == q % 16
  {
  }

  lemma PairsOfByte(p: int, q: int, r: int, s: int)
    requires 0 <= p < 4 && 0 <= q < 4 && 0 <= r < 4 && 0 <= s < 4
    ensures var b := p + 4 * q + 16 * r + 64 * s; b % 4 == p && b / 4 % 4 == q && b / 16 % 4 == r && b / 64 == s
  {
    var b := p + 4 * q + 16 * r + 64 * s;
    assert b / 4 == q + 4 * r + 16 * s;
    assert b / 16 == r + 4 * s;
  }

  lemma HighJoined(p: int, q: int, r: int, s: int)
    requires 0 <= p < 64 && 0 <= q < 64 && 0 <= r < 64 && 0 <= s < 64
    ensures var b := JoinHigh(p, q, r, s);
      b % 4 == p / 16 && b / 4 % 4 == q / 16 && b / 16 % 4 == r / 16 && b / 64 == s / 16
  {
    LevelSplits(p);
    LevelSplits(q);
    LevelSplits(r);
    LevelSplits(s);
    PairsOfByte(p / 16, q / 16, r / 16, s / 16);
  }

  /** The four levels out of the three bytes that hold them. */
  lemma JoinedLevels(p: int, q: int, r: int, s: int)
    requires 0 <= p < 64 && 0 <= q < 64 && 0 <= r < 64 && 0 <= s < 64
    ensures JoinLow(p, r) % 16 + 16 * (JoinHigh(p, q, r, s) % 4) == p
    ensures JoinLow(q, s) % 16 + 16 * (JoinHigh(p, q, r, s) / 4 % 4) == q
    ensures JoinLow(p, r) / 16 + 16 * (JoinHigh(p, q, r, s) / 16 % 4) == r
    ensures JoinLow(q, s) / 16 + 16 * (JoinHigh(p, q, r, s) / 64) == s
  {
    hide JoinLow, JoinHigh;
    LowJoined(p, r);
    LowJoined(q, s);
    HighJoined(p, q, r, s);
    LevelSplits(p);
    LevelSplits(q);
    LevelSplits(r);
    LevelSplits(s);
  }

  lemma JoinedColumn(block: seq<u8>, half: nat, l: nat, p: int, q: int, r: int, s: int)
    requires |block| >= 192 && half < 2 && l < 32
    requires 0 <= p < 64 && 0 <= q < 64 && 0 <= r < 64 && 0 <= s < 64
    requires block[64 * half + l] == JoinLow(p, r) && block[64 * half + l + 32] == JoinLow(q, s)
    requires block[128 + 32 * half + l] == JoinHigh(p, q, r, s)
    ensures LevelAt(block, half, 0, l) == p && LevelAt(block, half, 1, l) == q
    ensures LevelAt(block, half, 2, l) == r && LevelAt(block, half, 3, l) == s
  {
    hide LevelAt, JoinLow, JoinHigh;
    LevelBits(block, half, l);
    JoinedLevels(p, q, r, s);
  }

  /** One column of four levels survives packing. */
  lemma ColumnRoundTrip(levels: seq<int>, tail: seq<u8>, half: nat, l: nat)
    requires IsLevels(levels) && half < 2 && l < 32
    ensures forall lane: nat :: lane < 4 ==> LevelAt(Packed(levels) + tail, half, lane, l) == levels[At(half, lane, l)]
  {
    hide Packed, LevelAt, JoinLow, JoinHigh;
    PackedAt(levels, half, l);
    JoinedColumn(Packed(levels) + tail, half, l,
                 levels[At(half, 0, l)], levels[At(half, 1, l)], levels[At(half, 2, l)], levels[At(half, 3, l)]);
  }

  /** Unpacking packed levels returns them, whatever scales follow. */
  lemma UnpackPacked(levels: seq<int>, tail: seq<u8>)
    requires IsLevels(levels)
    ensures Levels(Packed(levels) + tail) == levels
  {
    hide Packed, Levels;
    var block := Packed(levels) + tail;
    forall i: nat | i < VALUES ensures Levels(block)[i] == levels[i] {
      Places(i);
      ColumnRoundTrip(levels, tail, i / 128, i % 32);
      LevelsAt(block, i / 128, i % 128 / 32, i % 32);
    }
  }

  /** Repacking a block's levels returns its 192 bytes. */
  lemma PackUnpacked(block: seq<u8>)
    requires |block| >= 192
    ensures IsLevels(Levels(block)) && Packed(Levels(block)) == block[..192]
  {
    hide Packed, Levels;
    LevelsAreLevels(block);
    forall p: nat | p < 192 ensures Packed(Levels(block))[p] == block[p] {
      PackedByte(block, p);
    }
  }

  lemma PackedByte(block: seq<u8>, p: nat)
    requires |block| >= 192 && p < 192 && IsLevels(Levels(block))
    ensures Packed(Levels(block))[p] == block[p]
  {
    hide Packed, Levels, IsLevels, LowByte, HighByte;
    if p < 128 {
      var half, l := p / 64, p % 32;
      assert p == 64 * half + l || p == 64 * half + l + 32;
      ByteRoundTrip(block, half, l);
      PackedAt(Levels(block), half, l);
    } else {
      var half, l := (p - 128) / 32, (p - 128) % 32;
      ByteRoundTrip(block, half, l);
      PackedAt(Levels(block), half, l);
    }
  }

  lemma ByteRoundTrip(block: seq<u8>, half: nat, l: nat)
    requires |block| >= 192 && half < 2 && l < 32 && IsLevels(Levels(block))
    ensures LowByte(Levels(block), half, 0, l) == block[64 * half + l]
    ensures LowByte(Levels(block), half, 1, l) == block[64 * half + l + 32]
    ensures HighByte(Levels(block), half, l) == block[128 + 32 * half + l]
  {
    hide Levels, LevelAt, JoinLow, JoinHigh, IsLevels, At;
    LevelsAt(block, half, 0, l);
    LevelsAt(block, half, 1, l);
    LevelsAt(block, half, 2, l);
    LevelsAt(block, half, 3, l);
    LevelBits(block, half, l);
    Rejoined(block[64 * half + l], block[64 * half + l + 32], block[128 + 32 * half + l]);
  }

  lemma Rejoined(low13: u8, low24: u8, high: u8)
    ensures var p, q := low13 % 16 + 16 * (high % 4), low24 % 16 + 16 * (high / 4 % 4);
      var r, s := low13 / 16 + 16 * (high / 16 % 4), low24 / 16 + 16 * (high / 64);
      && 0 <= p < 64 && 0 <= q < 64 && 0 <= r < 64 && 0 <= s < 64
      && JoinLow(p, r) == low13 && JoinLow(q, s) == low24 && JoinHigh(p, q, r, s) == high
  {
    LevelParts(low13 % 16, high % 4);
    LevelParts(low24 % 16, high / 4 % 4);
    LevelParts(low13 / 16, high / 16 % 4);
    LevelParts(low24 / 16, high / 64);
    PairsOfHigh(high);
  }

  lemma LevelParts(low: int, high: int)
    requires 0 <= low < 16 && 0 <= high < 4
    ensures (low + 16 * high) % 16 == low && (low + 16 * high) / 16 == high
  {
  }

  lemma PairsOfHigh(b: u8)
    ensures b == b % 4 + 4 * (b / 4 % 4) + 16 * (b / 16 % 4) + 64 * (b / 64)
  {
    Shifted(b, 4);
    Shifted(b, 16);
    assert b / 4 == 4 * (b / 16) + b / 4 % 4;
    assert b / 16 == 4 * (b / 64) + b / 16 % 4;
  }

  // ---------------------------------------------------------------------------
  // Whole rows
  // ---------------------------------------------------------------------------

  function BlockAt(row: seq<u8>, k: nat): (b: seq<u8>)
    requires BLOCK_BYTES6 * k + BLOCK_BYTES6 <= |row|
    ensures |b| == BLOCK_BYTES6
  {
    row[BLOCK_BYTES6 * k..BLOCK_BYTES6 * k + BLOCK_BYTES6]
  }

  /** What a block holds: its levels, then sixteen scales and the two bytes of `d`. */
  datatype LevelBlock = LevelBlock(levels: seq<int>, tail: seq<u8>)

  predicate IsBlock(b: LevelBlock) {
    IsLevels(b.levels) && |b.tail| == BLOCK_BYTES6 - 192
  }

  predicate AreBlocks(blocks: seq<LevelBlock>) {
    forall k :: 0 <= k < |blocks| ==> IsBlock(blocks[k])
  }

  /** The blocks packed one after another. */
  function RowOfBlocks(blocks: seq<LevelBlock>): (row: seq<u8>)
    requires AreBlocks(blocks)
    ensures |row| == BLOCK_BYTES6 * |blocks|
  {
    if blocks == [] then [] else
    var n := |blocks| - 1;
    RowOfBlocks(blocks[..n]) + (Packed(blocks[n].levels) + blocks[n].tail)
  }

  /** The first `n` blocks of a row unpacked. */
  function BlocksOfRow(row: seq<u8>, n: nat): (blocks: seq<LevelBlock>)
    requires BLOCK_BYTES6 * n <= |row|
    ensures |blocks| == n
  {
    seq(n, k requires 0 <= k < n => LevelBlock(Levels(BlockAt(row, k)), BlockAt(row, k)[192..]))
  }

  lemma BlocksOfPrefix(row: seq<u8>, more: seq<u8>, n: nat)
    requires BLOCK_BYTES6 * n <= |row|
    ensures BlocksOfRow(row + more, n) == BlocksOfRow(row, n)
  {
    hide Levels;
    forall k | 0 <= k < n ensures BlockAt(row + more, k) == BlockAt(row, k) {
    }
  }

  lemma BlocksSnoc(row: seq<u8>, n: nat)
    requires BLOCK_BYTES6 * (n + 1) <= |row|
    ensures BlocksOfRow(row, n + 1)
         == BlocksOfRow(row, n) + [LevelBlock(Levels(BlockAt(row, n)), BlockAt(row, n)[192..])]
  {
    hide Levels, BlockAt;
  }

  /** Unpacking a packed row returns every block of it, for any number of blocks. */
  lemma {:induction false} UnpackPackedRow(blocks: seq<LevelBlock>)
    requires AreBlocks(blocks)
    ensures BlocksOfRow(RowOfBlocks(blocks), |blocks|) == blocks
  {
    hide Levels, Packed, IsLevels;
    if blocks != [] {
      var n := |blocks| - 1;
      var before, last := RowOfBlocks(blocks[..n]), blocks[n];
      var row := RowOfBlocks(blocks);
      UnpackPackedRow(blocks[..n]);
      BlocksOfPrefix(before, Packed(last.levels) + last.tail, n);
      BlocksSnoc(row, n);
      assert BlockAt(row, n) == Packed(last.levels) + last.tail;
      UnpackPacked(last.levels, last.tail);
      assert blocks == blocks[..n] + [last];
    }
  }

  /** Repacking a row of whole blocks returns its bytes. */
  lemma {:induction false} PackUnpackedRow(row: seq<u8>, n: nat)
    requires |row| == BLOCK_BYTES6 * n
    ensures AreBlocks(BlocksOfRow(row, n)) && RowOfBlocks(BlocksOfRow(row, n)) == row
  {
    hide Levels, Packed, IsLevels;
    if n > 0 {
      var before, last := row[..BLOCK_BYTES6 * (n - 1)], BlockAt(row, n - 1);
      PackUnpackedRow(before, n - 1);
      assert row == before + last;
      BlocksOfPrefix(before, last, n - 1);
      BlocksSnoc(row, n - 1);
      PackUnpacked(last);
      assert last == last[..192] + last[192..];
      var blocks := BlocksOfRow(row, n);
      assert blocks[..n - 1] == BlocksOfRow(before, n - 1);
    }
  }

  /** A signed byte as stored. */
  function StoredByte(scale: int): (b: u8)
    requires -128 <= scale < 128
  {
    if scale < 0 then scale + 256 else scale
  }

  function SignedByte(b: u8): (scale: int)
    ensures -128 <= scale < 128 && StoredByte(scale) == b
  {
    if b < 128 then b else b - 256
  }

  /** The packing loop, then the scales, then the two bytes of `d`. */
  method PackBlock(levels: seq<int>, quantScales: seq<int>, dBits: nat, output: array<u8>)
    requires IsLevels(levels) && |quantScales| == 16 && dBits < 0x1_0000 && output.Length == BLOCK_BYTES6
    requires forall g :: 0 <= g < 16 ==> -128 <= quantScales[g] < 128
    modifies output
    ensures output[..192] == Packed(levels)
    ensures forall g :: 0 <= g < 16 ==> SignedByte(output[192 + g]) == quantScales[g]
    ensures output[208] == dBits % 256 && output[209] == dBits / 256
  {
    hide LowByte, HighByte, Packed;
    var half := 0;
    while half < 2
      invariant 0 <= half <= 2
      invariant forall h, l :: 0 <= h < half && 0 <= l < 32 ==> ColumnStored(levels, output[..192], h, l)
    {
      PackHalf(levels, half, output);
      half := half + 1;
    }
    ColumnsMakePacked(levels, output[..192]);
    ghost var packed := output[..192];
    var g := 0;
    while g < 16
      invariant 0 <= g <= 16
      invariant output[..192] == packed
      invariant forall k :: 0 <= k < g ==> SignedByte(output[192 + k]) == quantScales[k]
    {
      output[192 + g] := StoredByte(quantScales[g]);
      g := g + 1;
    }
    output[208], output[209] := dBits % 256, dBits / 256;
  }

  predicate ColumnStored(levels: seq<int>, bytes: seq<u8>, half: nat, l: nat)
    requires IsLevels(levels) && |bytes| == 192 && half < 2 && l < 32
  {
    && bytes[64 * half + l] == LowByte(levels, half, 0, l)
    && bytes[64 * half + l + 32] == LowByte(levels, half, 1, l)
    && bytes[128 + 32 * half + l] == HighByte(levels, half, l)
  }

  method PackHalf(levels: seq<int>, half: nat, output: array<u8>)
    requires IsLevels(levels) && half < 2 && output.Length == BLOCK_BYTES6
    requires forall h, l :: 0 <= h < half && 0 <= l < 32 ==> ColumnStored(levels, output[..192], h, l)
    modifies output
    ensures forall h, l :: 0 <= h <= half && 0 <= l < 32 ==> ColumnStored(levels, output[..192], h, l)
  {
    hide JoinLow, JoinHigh, Bits.And, Bits.Or, Bits.Shl, Bits.Shr;
    var index := 0;
    while index < 32
      invariant 0 <= index <= 32
      invariant forall h, l :: 0 <= h < half && 0 <= l < 32 ==> ColumnStored(levels, output[..192], h, l)
      invariant forall l :: 0 <= l < index ==> ColumnStored(levels, output[..192], half, l)
    {
      var q1: u8, q2: u8, q3: u8, q4: u8 := levels[At(half, 0, index)], levels[At(half, 1, index)],
                                            levels[At(half, 2, index)], levels[At(half, 3, index)];
      ghost var before := output[..192];
      output[64 * half + index] := Bits.Or(Bits.And(q1, 15), Bits.Shl(Bits.And(q3, 15), 4));
      output[64 * half + index + 32] := Bits.Or(Bits.And(q2, 15), Bits.Shl(Bits.And(q4, 15), 4));
      output[128 + 32 * half + index] :=
        Bits.Or(Bits.Or(Bits.Or(Bits.Shr(q1, 4), Bits.Shl(Bits.Shr(q2, 4), 2)), Bits.Shl(Bits.Shr(q3, 4), 4)),
                Bits.Shl(Bits.Shr(q4, 4), 6));
      JoinedBytes(q1, q2, q3, q4);
      OtherColumns(levels, before, output[..192], half, index);
      index := index + 1;
    }
  }

  /** Writing one column leaves the others as they were. */
  lemma OtherColumns(levels: seq<int>, before: seq<u8>, after: seq<u8>, half: nat, l: nat)
    requires IsLevels(levels) && |before| == |after| == 192 && half < 2 && l < 32
    requires forall p :: 0 <= p < 192 && p != 64 * half + l && p != 64 * half + l + 32 && p != 128 + 32 * half + l ==>
      after[p] == before[p]
    ensures forall h, k :: 0 <= h < 2 && 0 <= k < 32 && (h != half || k != l) && ColumnStored(levels, before, h, k) ==>
      ColumnStored(levels, after, h, k)
  {
    hide LowByte, HighByte;
    forall h, k | 0 <= h < 2 && 0 <= k < 32 && (h != half || k != l) && ColumnStored(levels, before, h, k)
      ensures ColumnStored(levels, after, h, k)
    {
      assert after[64 * h + k] == before[64 * h + k];
      assert after[64 * h + k + 32] == before[64 * h + k + 32];
      assert after[128 + 32 * h + k] == before[128 + 32 * h + k];
    }
  }

  lemma ColumnsMakePacked(levels: seq<int>, bytes: seq<u8>)
    requires IsLevels(levels) && |bytes| == 192
    requires forall h, l :: 0 <= h < 2 && 0 <= l < 32 ==> ColumnStored(levels, bytes, h, l)
    ensures bytes == Packed(levels)
  {
    hide LowByte, HighByte, Packed;
    forall p: nat | p < 192 ensures bytes[p] == Packed(levels)[p] {
      var half := if p < 128 then p / 64 else (p - 128) / 32;
      var l := if p < 128 then p % 32 else (p - 128) % 32;
      assert p < 128 ==> p == 64 * half + l || p == 64 * half + l + 32;
      assert ColumnStored(levels, bytes, half, l);
      PackedAt(levels, half, l);
    }
  }
}
