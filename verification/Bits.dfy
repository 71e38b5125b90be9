/** A byte's bits: the shifts and masks of the unpacking loops, and what they are as arithmetic. */
module Bits {
  type u8 = x: int | 0 <= x < 256

  lemma Successor(v: bv8)
    requires v != 255
    ensures (v + 1) as int == v as int + 1
  {
  }

  /** The eight bits of a byte. */
  function Vector(b: u8): (v: bv8)
    ensures v as int == b
  {
    if b == 0 then 0 else
    var v := Vector(b - 1);
    Successor(v);
    v + 1
  }

  /** No other eight bits have its value. */
  lemma OneVector(v: bv8, w: bv8)
    requires v as int == w as int
    ensures v == w
  {
  }

  function And(a: u8, b: u8): u8 {
    (Vector(a) & Vector(b)) as int
  }

  function Or(a: u8, b: u8): u8 {
    (Vector(a) | Vector(b)) as int
  }

  function Shr(a: u8, n: nat): u8
    requires n < 8
  {
    (Vector(a) >> n) as int
  }

  /** Bits shifted out of the byte are lost. */
  function Shl(a: u8, n: nat): u8
    requires n < 8
  {
    (Vector(a) << n) as int
  }

  // ---------------------------------------------------------------------------
  // Taking apart
  // ---------------------------------------------------------------------------

  lemma LowFour(v: bv8)
    ensures (v & 15) as int == v as int % 16
  {
  }

  lemma LowTwo(v: bv8)
    ensures (v & 3) as int == v as int % 4
  {
  }

  lemma LowSix(v: bv8)
    ensures (v & 63) as int == v as int % 64
  {
  }

  lemma ShiftedRight(v: bv8)
    ensures (v >> 2) as int == v as int / 4
    ensures (v >> 4) as int == v as int / 16
    ensures (v >> 6) as int == v as int / 64
  {
  }

  lemma LowNibble(b: u8)
    ensures And(b, 15) == b % 16
  {
    hide Vector;
    LowFour(Vector(b));
    OneVector(Vector(15), 15);
  }

  lemma LowPair(b: u8)
    ensures And(b, 3) == b % 4
  {
    hide Vector;
    LowTwo(Vector(b));
    OneVector(Vector(3), 3);
  }

  lemma LowSixBits(b: u8)
    ensures And(b, 63) == b % 64
  {
    hide Vector;
    LowSix(Vector(b));
    OneVector(Vector(63), 63);
  }

  lemma Shifts(b: u8)
    ensures Shr(b, 2) == b / 4 && Shr(b, 4) == b / 16 && Shr(b, 6) == b / 64
  {
    hide Vector;
    ShiftedRight(Vector(b));
  }

  // ---------------------------------------------------------------------------
  // Putting together
  // ---------------------------------------------------------------------------

  lemma JoinFour(v: bv8, w: bv8)
    requires v < 16 && w < 16
    ensures (v | (w << 4)) as int == v as int + 16 * (w as int)
  {
  }

  lemma JoinTwos(p: bv8, q: bv8, r: bv8, s: bv8)
    requires p < 4 && q < 4 && r < 4 && s < 4
    ensures (p | (q << 2) | (r << 4) | (s << 6)) as int == p as int + 4 * (q as int) + 16 * (r as int) + 64 * (s as int)
  {
  }

  lemma Small(v: bv8)
    ensures v as int < 16 ==> v < 16
    ensures v as int < 4 ==> v < 4
  {
  }

  lemma OrOf(v: bv8, w: bv8)
    ensures Or(v as int, w as int) == (v | w) as int
  {
    hide Vector;
    OneVector(Vector(v as int), v);
    OneVector(Vector(w as int), w);
  }

  lemma ShlOf(v: bv8, n: nat)
    requires n < 8
    ensures Shl(v as int, n) == (v << n) as int
  {
    hide Vector;
    OneVector(Vector(v as int), v);
  }

  lemma NibblesOfVectors(v: bv8, w: bv8)
    requires v as int < 16 && w as int < 16
    ensures Or(v as int, Shl(w as int, 4)) == v as int + 16 * (w as int)
  {
    hide Or, Shl;
    Small(v);
    Small(w);
    ShlOf(w, 4);
    OrOf(v, w << 4);
    JoinFour(v, w);
  }

  lemma PairsOfVectors(a: bv8, b: bv8, c: bv8, d: bv8)
    requires a as int < 4 && b as int < 4 && c as int < 4 && d as int < 4
    ensures Or(Or(Or(a as int, Shl(b as int, 2)), Shl(c as int, 4)), Shl(d as int, 6))
         == a as int + 4 * (b as int) + 16 * (c as int) + 64 * (d as int)
  {
    hide Or, Shl;
    Small(a);
    Small(b);
    Small(c);
    Small(d);
    ShlOf(b, 2);
    ShlOf(c, 4);
    ShlOf(d, 6);
    OrOf(a, b << 2);
    OrOf(a | (b << 2), c << 4);
    OrOf(a | (b << 2) | (c << 4), d << 6);
    JoinTwos(a, b, c, d);
  }

  /** A low nibble and a nibble shifted up. */
  lemma NibblesJoin(low: u8, high: u8)
    requires low < 16 && high < 16
    ensures Or(low, Shl(high, 4)) == low + 16 * high
  {
    hide Or, Shl, Vector;
    NibblesOfVectors(Vector(low), Vector(high));
  }

  /** Four pairs of bits, each shifted to its place. */
  lemma PairsJoin(p: u8, q: u8, r: u8, s: u8)
    requires p < 4 && q < 4 && r < 4 && s < 4
    ensures Or(Or(Or(p, Shl(q, 2)), Shl(r, 4)), Shl(s, 6)) == p + 4 * q + 16 * r + 64 * s
  {
    hide Or, Shl, Vector;
    PairsOfVectors(Vector(p), Vector(q), Vector(r), Vector(s));
  }

  /** The same from the top down. */
  lemma PairsJoinDown(p: u8, q: u8, r: u8, s: u8)
    requires p < 4 && q < 4 && r < 4 && s < 4
    ensures Or(Or(Or(Shl(p, 6), Shl(q, 4)), Shl(r, 2)), s) == 64 * p + 16 * q + 4 * r + s
  {
    hide Or, Shl, Vector;
    PairsOfVectorsDown(Vector(p), Vector(q), Vector(r), Vector(s));
  }

  lemma PairsOfVectorsDown(a: bv8, b: bv8, c: bv8, d: bv8)
    requires a as int < 4 && b as int < 4 && c as int < 4 && d as int < 4
    ensures Or(Or(Or(Shl(a as int, 6), Shl(b as int, 4)), Shl(c as int, 2)), d as int)
         == 64 * (a as int) + 16 * (b as int) + 4 * (c as int) + d as int
  {
    hide Or, Shl;
    Small(a);
    Small(b);
    Small(c);
    Small(d);
    ShlOf(a, 6);
    ShlOf(b, 4);
    ShlOf(c, 2);
    OrOf(a << 6, b << 4);
    OrOf((a << 6) | (b << 4), c << 2);
    OrOf((a << 6) | (b << 4) | (c << 2), d);
    JoinTwos(d, c, b, a);
    assert (a << 6) | (b << 4) | (c << 2) | d == d | (c << 2) | (b << 4) | (a << 6);
  }
}
