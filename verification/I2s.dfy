/**
  Ternary weights packed four to a byte, 128 columns to a block of 32 bytes, and the two
  exact-arithmetic kernels that multiply them: the two-accumulator loop and the
  loop-interchanged table lookup.
  */
module I2s {
  import opened Wrappers
  import Bits

  type u8 = Bits.u8

  const QK: nat := 128
  const BLOCK_BYTES: nat := 32

  // ---------------------------------------------------------------------------
  // Layout
  // ---------------------------------------------------------------------------

  /** The `k`-th two-bit code of a byte, from the top: shift by 6 - 2k, keep two bits. */
  function Code(b: u8, k: nat): (c: nat)
    requires k < 4
    ensures c < 4
  {
    if k == 0 then b / 64 else if k == 1 then b / 16 % 4 else if k == 2 then b / 4 % 4 else b % 4
  }

  function Ternary(code: nat): int {
    if code == 0 then -1 else if code == 2 then 1 else 0
  }

  /** What the kernels write: the byte shifted right, its two low bits kept. */
  lemma CodeIsShifted(b: u8, k: nat)
    requires k < 4
    ensures Code(b, k) == if k == 3 then Bits.And(b, 3) else Bits.And(Bits.Shr(b, 6 - 2 * k), 3)
  {
    hide Bits.And, Bits.Shr;
    Bits.Shifts(b);
    if k == 3 {
      Bits.LowPair(b);
    } else {
      Bits.LowPair(Bits.Shr(b, 6 - 2 * k));
    }
  }

  /** A byte is its four codes. */
  lemma CodesOfByte(b: u8)
    ensures b == 64 * Code(b, 0) + 16 * Code(b, 1) + 4 * Code(b, 2) + Code(b, 3)
  {
    Shifted(b, 4);
    Shifted(b, 16);
    assert b / 4 == 4 * (b / 16) + b / 4 % 4;
    assert b / 16 == 4 * (b / 64) + b / 16 % 4;
  }

  lemma Shifted(b: u8, unit: nat)
    requires unit == 4 || unit == 16
    ensures b / unit / 4 == b / (4 * unit)
  {
  }

  lemma ByteOfCodes(c0: nat, c1: nat, c2: nat, c3: nat)
    requires c0 < 4 && c1 < 4 && c2 < 4 && c3 < 4
    ensures var b := 64 * c0 + 16 * c1 + 4 * c2 + c3;
      b < 256 && Code(b, 0) == c0 && Code(b, 1) == c1 && Code(b, 2) == c2 && Code(b, 3) == c3
  {
    var b := 64 * c0 + 16 * c1 + 4 * c2 + c3;
    Digits(16 * c0 + 4 * c1 + c2, c3);
    Digits(4 * c0 + c1, c2);
    Digits(c0, c1);
    Shifted(b, 4);
    Shifted(b, 16);
  }

  lemma Digits(q: nat, r: nat)
    requires r < 4
    ensures (4 * q + r) / 4 == q && (4 * q + r) % 4 == r
  {
  }

  function Column(block: nat, byte: nat, code: nat): nat {
    128 * block + byte + 32 * code
  }

  datatype Place = Place(block: nat, byte: nat, code: nat)

  function PlaceOf(column: nat): Place {
    Place(column / 128, column % 32, column % 128 / 32)
  }

  /** Block, byte and code count the columns one to one. */
  lemma ColumnsAreCounted(block: nat, byte: nat, code: nat, column: nat)
    requires byte < 32 && code < 4
    ensures PlaceOf(Column(block, byte, code)) == Place(block, byte, code)
    ensures var p := PlaceOf(column); p.byte < 32 && p.code < 4 && Column(p.block, p.byte, p.code) == column
  {
    PlaceOfColumn(block, byte, code);
    ColumnOfPlace(column);
    hide *;
  }

  lemma PlaceOfColumn(block: nat, byte: nat, code: nat)
    requires byte < 32 && code < 4
    ensures PlaceOf(Column(block, byte, code)) == Place(block, byte, code)
  {
    var c := Column(block, byte, code);
    assert c == 128 * block + (byte + 32 * code) && c == 32 * (4 * block + code) + byte;
    assert c / 128 == block && c % 128 == byte + 32 * code;
    Remainder(4 * block + code, byte);
  }

  lemma ColumnOfPlace(column: nat)
    ensures var p := PlaceOf(column); p.byte < 32 && p.code < 4 && Column(p.block, p.byte, p.code) == column
  {
    var q, r := column / 128, column % 128;
    assert column == 32 * (4 * q + r / 32) + r % 32;
    Remainder(4 * q + r / 32, r % 32);
  }

  lemma Remainder(q: nat, r: nat)
    requires r < 32
    ensures (32 * q + r) % 32 == r
  {
  }

  /** The values of one code position of a run of bytes. */
  function Lane(bytes: seq<u8>, code: nat): (r: seq<int>)
    requires code < 4
    ensures |r| == |bytes|
    ensures forall i :: 0 <= i < |bytes| ==> r[i] == Ternary(Code(bytes[i], code))
  {
    seq(|bytes|, i requires 0 <= i < |bytes| => Ternary(Code(bytes[i], code)))
  }

  function UnpackBlock(bytes: seq<u8>): (r: seq<int>)
    requires |bytes| == BLOCK_BYTES
    ensures |r| == QK
  {
    Lane(bytes, 0) + Lane(bytes, 1) + Lane(bytes, 2) + Lane(bytes, 3)
  }

  /** The ternary values of a row, in column order. */
  function Unpack(row: seq<u8>): (r: seq<int>)
    requires |row| % BLOCK_BYTES == 0
    ensures |r| == 4 * |row|
  {
    if row == [] then [] else
    Unpack(row[..|row| - BLOCK_BYTES]) + UnpackBlock(row[|row| - BLOCK_BYTES..])
  }

  /** Each column's value is the code its place names. */
  lemma {:induction false} UnpackAt(row: seq<u8>, column: nat)
    requires |row| % BLOCK_BYTES == 0 && column < 4 * |row|
    ensures var p := PlaceOf(column);
      32 * p.block + p.byte < |row|
      && Unpack(row)[column] == Ternary(Code(row[32 * p.block + p.byte], p.code))
  {
    hide Code, Ternary;
    var init := row[..|row| - BLOCK_BYTES];
    if column < 4 * |init| {
      UnpackAt(init, column);
    } else {
      var within := column - 4 * |init|;
      var last := row[|row| - BLOCK_BYTES..];
      LastBlock(|init| / 32, within);
      UnpackBlockAt(last, within);
      assert Unpack(row)[column] == UnpackBlock(last)[within];
    }
  }

  lemma LastBlock(block: nat, within: nat)
    requires within < 128
    ensures PlaceOf(128 * block + within) == Place(block, within % 32, within / 32)
  {
    Remainder(4 * block + within / 32, within % 32);
  }

  lemma UnpackBlockAt(bytes: seq<u8>, within: nat)
    requires |bytes| == BLOCK_BYTES && within < 128
    ensures UnpackBlock(bytes)[within] == Ternary(Code(bytes[within % 32], within / 32))
  {
    hide Code, Ternary;
    assert UnpackBlock(bytes)[within] == Lane(bytes, within / 32)[within % 32];
  }

  lemma {:induction false} UnpackIsTernary(row: seq<u8>)
    requires |row| % BLOCK_BYTES == 0
    ensures forall i :: 0 <= i < 4 * |row| ==> -1 <= Unpack(row)[i] <= 1
  {
    if row != [] { UnpackIsTernary(row[..|row| - BLOCK_BYTES]); }
  }

  lemma {:induction false} UnpackAppend(row: seq<u8>, block: seq<u8>)
    requires |row| % BLOCK_BYTES == 0 && |block| == BLOCK_BYTES
    ensures Unpack(row + block) == Unpack(row) + UnpackBlock(block)
  {
    assert (row + block)[..|row + block| - BLOCK_BYTES] == row;
    assert (row + block)[|row + block| - BLOCK_BYTES..] == block;
  }

  /** The four lanes of one block, written side by side from `base`. */
  method UnpackBlockInto(block: seq<u8>, base: nat, out: array<int>)
    requires |block| == BLOCK_BYTES && base + 128 <= out.Length
    modifies out
    ensures out[..base] == old(out[..base])
    ensures out[base..base + 128] == UnpackBlock(block)
  {
    hide Code, Ternary, UnpackBlock;
    var gp := 0;
    while gp < 32
      invariant 0 <= gp <= 32
      invariant out[..base] == old(out[..base])
      invariant LanesSoFar(block, out[base..base + 128], gp)
    {
      ghost var before := out[base..base + 128];
      var b := block[gp];
      out[base + gp] := Ternary(Code(b, 0));
      out[base + gp + 32] := Ternary(Code(b, 1));
      out[base + gp + 64] := Ternary(Code(b, 2));
      out[base + gp + 96] := Ternary(Code(b, 3));
      assert out[base..base + 128] == before[gp := Ternary(Code(b, 0))][gp + 32 := Ternary(Code(b, 1))]
                                            [gp + 64 := Ternary(Code(b, 2))][gp + 96 := Ternary(Code(b, 3))];
      gp := gp + 1;
    }
    FourLanes(block, out[base..base + 128]);
  }

  /** The first `gp` values of each lane are in place. */
  predicate LanesSoFar(block: seq<u8>, values: seq<int>, gp: nat)
    requires |block| == BLOCK_BYTES && |values| == 128 && gp <= 32
  {
    forall i :: 0 <= i < gp ==>
      && values[i] == Ternary(Code(block[i], 0)) && values[i + 32] == Ternary(Code(block[i], 1))
      && values[i + 64] == Ternary(Code(block[i], 2)) && values[i + 96] == Ternary(Code(block[i], 3))
  }

  lemma FourLanes(block: seq<u8>, values: seq<int>)
    requires |block| == BLOCK_BYTES && |values| == 128 && LanesSoFar(block, values, 32)
    ensures values == UnpackBlock(block)
  {
    hide Code, Ternary;
    assert values[..32] == Lane(block, 0);
    assert values[32..64] == Lane(block, 1);
    assert values[64..96] == Lane(block, 2);
    assert values[96..] == Lane(block, 3);
    assert values == values[..32] + values[32..64] + values[64..96] + values[96..];
  }

  /** Unpacking a row into a buffer of its width. */
  method UnpackRow(row: seq<u8>, out: array<int>)
    requires |row| % BLOCK_BYTES == 0 && out.Length == 4 * |row|
    modifies out
    ensures out[..] == Unpack(row)
  {
    hide UnpackBlock, Unpack;
    var bk := 0;
    NothingUnpacked(row);
    while bk < |row| / BLOCK_BYTES
      invariant 0 <= bk <= |row| / BLOCK_BYTES
      invariant out[..128 * bk] == Unpack(row[..32 * bk])
    {
      var block := row[32 * bk..32 * bk + 32];
      UnpackBlockInto(block, 128 * bk, out);
      assert out[..128 * bk + 128] == out[..128 * bk] + out[128 * bk..128 * bk + 128];
      assert row[..32 * (bk + 1)] == row[..32 * bk] + block;
      UnpackAppend(row[..32 * bk], block);
      bk := bk + 1;
    }
    assert row[..32 * bk] == row && out[..128 * bk] == out[..];
  }

  lemma NothingUnpacked(row: seq<u8>)
    ensures Unpack(row[..0]) == []
  {
  }

  // ---------------------------------------------------------------------------
  // The dot product
  // ---------------------------------------------------------------------------

  function Times(w: int, x: real): real {
    w as real * x
  }

  function Dot(w: seq<int>, x: seq<real>): real
    requires |w| == |x|
  {
    if w == [] then 0.0 else Dot(w[..|w| - 1], x[..|x| - 1]) + Times(w[|w| - 1], x[|x| - 1])
  }

  lemma {:induction false} DotConcat(v: seq<int>, w: seq<int>, x: seq<real>, y: seq<real>)
    requires |v| == |x| && |w| == |y|
    ensures Dot(v + w, x + y) == Dot(v, x) + Dot(w, y)
  {
    if w == [] {
      assert v + w == v && x + y == x;
    } else {
      DotConcat(v, w[..|w| - 1], x, y[..|y| - 1]);
      assert (v + w)[..|v + w| - 1] == v + w[..|w| - 1];
      assert (x + y)[..|x + y| - 1] == x + y[..|y| - 1];
    }
  }

  lemma DotSnoc(w: seq<int>, x: seq<real>, k: nat)
    requires |w| == |x| && k < |w|
    ensures Dot(w[..k + 1], x[..k + 1]) == Dot(w[..k], x[..k]) + Times(w[k], x[k])
  {
    assert w[..k + 1][..k] == w[..k] && x[..k + 1][..k] == x[..k];
  }

  /** What one byte adds: its four codes against the four columns it covers. */
  function Quad(b: u8, x0: real, x1: real, x2: real, x3: real): real {
    Times(Ternary(Code(b, 0)), x0) + Times(Ternary(Code(b, 1)), x1)
    + Times(Ternary(Code(b, 2)), x2) + Times(Ternary(Code(b, 3)), x3)
  }

  /** The first `gp` bytes of a block. */
  function Quads(bytes: seq<u8>, x: seq<real>, gp: nat): real
    requires |bytes| == BLOCK_BYTES && |x| == QK && gp <= 32
  {
    if gp == 0 then 0.0 else
    Quads(bytes, x, gp - 1) + Quad(bytes[gp - 1], x[gp - 1], x[gp + 31], x[gp + 63], x[gp + 95])
  }

  lemma {:induction false} QuadsAreLanes(bytes: seq<u8>, x: seq<real>, gp: nat)
    requires |bytes| == BLOCK_BYTES && |x| == QK && gp <= 32
    ensures Quads(bytes, x, gp)
         == Dot(Lane(bytes, 0)[..gp], x[..32][..gp]) + Dot(Lane(bytes, 1)[..gp], x[32..64][..gp])
          + Dot(Lane(bytes, 2)[..gp], x[64..96][..gp]) + Dot(Lane(bytes, 3)[..gp], x[96..][..gp])
  {
    if gp > 0 {
      QuadsAreLanes(bytes, x, gp - 1);
      DotSnoc(Lane(bytes, 0), x[..32], gp - 1);
      DotSnoc(Lane(bytes, 1), x[32..64], gp - 1);
      DotSnoc(Lane(bytes, 2), x[64..96], gp - 1);
      DotSnoc(Lane(bytes, 3), x[96..], gp - 1);
    }
  }

  /** Taken byte by byte or column by column, a block's product is the same. */
  lemma BlockInColumnOrder(bytes: seq<u8>, x: seq<real>)
    requires |bytes| == BLOCK_BYTES && |x| == QK
    ensures Quads(bytes, x, 32) == Dot(UnpackBlock(bytes), x)
  {
    hide Quads, Dot, Lane;
    QuadsAreLanes(bytes, x, 32);
    var l0, l1, l2, l3 := Lane(bytes, 0), Lane(bytes, 1), Lane(bytes, 2), Lane(bytes, 3);
    var x0, x1, x2, x3 := x[..32], x[32..64], x[64..96], x[96..];
    assert l0[..32] == l0 && l1[..32] == l1 && l2[..32] == l2 && l3[..32] == l3;
    assert x0[..32] == x0 && x1[..32] == x1 && x2[..32] == x2 && x3[..32] == x3;
    DotConcat(l0, l1, x0, x1);
    DotConcat(l0 + l1, l2, x0 + x1, x2);
    DotConcat(l0 + l1 + l2, l3, x0 + x1 + x2, x3);
    assert x == x0 + x1 + x2 + x3;
  }

  /** The product after `bk` whole blocks and `gp` bytes of the next. */
  function Partial(row: seq<u8>, x: seq<real>, bk: nat, gp: nat): real
    requires |row| % BLOCK_BYTES == 0 && |x| == 4 * |row|
    requires 32 * bk + 32 <= |row| && gp <= 32
  {
    Dot(Unpack(row[..32 * bk]), x[..128 * bk])
    + Quads(row[32 * bk..32 * bk + 32], x[128 * bk..128 * bk + 128], gp)
  }

  /** A block's last byte completes it. */
  lemma BlockDone(row: seq<u8>, x: seq<real>, bk: nat)
    requires |row| % BLOCK_BYTES == 0 && |x| == 4 * |row| && 32 * bk + 32 <= |row|
    ensures Partial(row, x, bk, 32) == Dot(Unpack(row[..32 * (bk + 1)]), x[..128 * (bk + 1)])
  {
    hide Dot, Quads, UnpackBlock, Unpack;
    var done, block := row[..32 * bk], row[32 * bk..32 * bk + 32];
    assert row[..32 * (bk + 1)] == done + block;
    assert x[..128 * (bk + 1)] == x[..128 * bk] + x[128 * bk..128 * bk + 128];
    UnpackAppend(done, block);
    DotConcat(Unpack(done), UnpackBlock(block), x[..128 * bk], x[128 * bk..128 * bk + 128]);
    BlockInColumnOrder(block, x[128 * bk..128 * bk + 128]);
  }

  lemma PartialStep(row: seq<u8>, x: seq<real>, bk: nat, gp: nat)
    requires |row| % BLOCK_BYTES == 0 && |x| == 4 * |row|
    requires 32 * bk + 32 <= |row| && gp < 32
    ensures Partial(row, x, bk, 0) == Dot(Unpack(row[..32 * bk]), x[..128 * bk])
    ensures var col := 128 * bk + gp;
      Partial(row, x, bk, gp + 1)
      == Partial(row, x, bk, gp) + Quad(row[32 * bk + gp], x[col], x[col + 32], x[col + 64], x[col + 96])
  {
    hide Dot, Unpack, Quad;
  }

  // ---------------------------------------------------------------------------
  // The weight and its validation
  // ---------------------------------------------------------------------------

  /** A packed matrix as the kernels receive it; the scale is absent when it is missing or not finite. */
  datatype Weight = Weight(shape: seq<nat>, packed: seq<u8>, scale: Option<real>)

  predicate Accepts(w: Weight, inputLen: nat, outputLen: nat) {
    && |w.shape| == 2
    && inputLen == w.shape[0] && outputLen == w.shape[1]
    && inputLen > 0 && inputLen % QK == 0
    && |w.packed| == RowStart(inputLen / 4, outputLen)
    && w.scale.Some?
  }

  /** Where row `j` starts. */
  function RowStart(bytesPerRow: nat, j: nat): nat {
    j * bytesPerRow
  }

  /** Row `j` of the packed bytes; rows past the end read as zero bytes. */
  function RowAt(packed: seq<u8>, bytesPerRow: nat, j: nat): (r: seq<u8>)
    ensures |r| == bytesPerRow
  {
    if RowStart(bytesPerRow, j) + bytesPerRow <= |packed|
    then packed[RowStart(bytesPerRow, j)..RowStart(bytesPerRow, j) + bytesPerRow]
    else seq(bytesPerRow, _ => 0)
  }

  /** Every row of a matrix of the right size is there in full. */
  lemma RowFits(packed: seq<u8>, bytesPerRow: nat, rows: nat, j: nat)
    requires |packed| >= RowStart(bytesPerRow, rows) && j < rows
    ensures RowStart(bytesPerRow, j) + bytesPerRow <= |packed|
    ensures RowAt(packed, bytesPerRow, j) == packed[RowStart(bytesPerRow, j)..RowStart(bytesPerRow, j) + bytesPerRow]
  {
    assert (j + 1) * bytesPerRow <= rows * bytesPerRow;
  }

  /** The ternary weights of row `j`. */
  function RowWeights(packed: seq<u8>, width: nat, j: nat): (r: seq<int>)
    requires width % QK == 0
    ensures |r| == width
  {
    Unpack(RowAt(packed, width / 4, j))
  }

  /** The exact product of row `j` with the input. */
  function RowProduct(packed: seq<u8>, x: seq<real>, j: nat): real
    requires |x| % QK == 0
  {
    Dot(RowWeights(packed, |x|, j), x)
  }

  lemma ProductUnfolds(packed: seq<u8>, x: seq<real>, bytesPerRow: nat, j: nat)
    requires |x| == 4 * bytesPerRow && |x| % QK == 0 && bytesPerRow % 32 == 0
    ensures RowProduct(packed, x, j) == Dot(Unpack(RowAt(packed, bytesPerRow, j)), x)
  {
    hide Dot, Unpack, RowAt;
    assert |x| / 4 == bytesPerRow;
  }

  function Scaled(scale: real, sum: real): real {
    scale * sum
  }

  /** The output is the scaled product of every row. */
  ghost predicate IsProduct(w: Weight, x: seq<real>, out: seq<real>) {
    && w.scale.Some? && |x| % QK == 0
    && forall j: nat :: j < |out| ==> out[j] == Scaled(w.scale.value, RowProduct(w.packed, x, j))
  }

  // ---------------------------------------------------------------------------
  // Two accumulators
  // ---------------------------------------------------------------------------

  /** Plus-one weights add to one sum, minus-one weights to the other. */
  function Accumulate(pos: real, neg: real, code: nat, x: real): (r: (real, real))
    ensures r.0 - r.1 == pos - neg + Times(Ternary(code), x)
  {
    if code == 0 then (pos, neg + x) else if code == 2 then (pos + x, neg) else (pos, neg)
  }

  method ScalarRow(row: seq<u8>, x: seq<real>) returns (pos: real, neg: real)
    requires |row| % BLOCK_BYTES == 0 && |x| == 4 * |row|
    ensures pos - neg == Dot(Unpack(row), x)
  {
    hide Dot, Unpack, Partial, Ternary, Times;
    pos, neg := 0.0, 0.0;
    EmptyDot(row, x);
    var bk := 0;
    while bk < |row| / BLOCK_BYTES
      invariant 0 <= bk <= |row| / BLOCK_BYTES
      invariant pos - neg == Dot(Unpack(row[..32 * bk]), x[..128 * bk])
    {
      PartialStep(row, x, bk, 0);
      var gp := 0;
      while gp < BLOCK_BYTES
        invariant 0 <= gp <= BLOCK_BYTES
        invariant pos - neg == Partial(row, x, bk, gp)
      {
        var b := row[32 * bk + gp];
        var col := 128 * bk + gp;
        var s0 := Accumulate(pos, neg, Code(b, 0), x[col]);
        var s1 := Accumulate(s0.0, s0.1, Code(b, 1), x[col + 32]);
        var s2 := Accumulate(s1.0, s1.1, Code(b, 2), x[col + 64]);
        var s3 := Accumulate(s2.0, s2.1, Code(b, 3), x[col + 96]);
        PartialStep(row, x, bk, gp);
        pos, neg := s3.0, s3.1;
        gp := gp + 1;
      }
      BlockDone(row, x, bk);
      bk := bk + 1;
    }
    assert row[..32 * bk] == row && x[..128 * bk] == x;
  }

  lemma EmptyDot(row: seq<u8>, x: seq<real>)
    ensures Dot(Unpack(row[..0]), x[..0]) == 0.0
  {
  }

  lemma ProductOfSlice(packed: seq<u8>, x: seq<real>, bytesPerRow: nat, rows: nat, j: nat)
    requires |x| == 4 * bytesPerRow && |x| % QK == 0 && bytesPerRow % 32 == 0 && |packed| >= RowStart(bytesPerRow, rows) && j < rows
    ensures RowStart(bytesPerRow, j) + bytesPerRow <= |packed|
    ensures RowProduct(packed, x, j) == Dot(Unpack(packed[RowStart(bytesPerRow, j)..RowStart(bytesPerRow, j) + bytesPerRow]), x)
  {
    hide *;
    ProductUnfolds(packed, x, bytesPerRow, j);
    RowFits(packed, bytesPerRow, rows, j);
  }

  method MatvecScalar(w: Weight, x: seq<real>, output: array<real>) returns (ok: bool)
    modifies output
    ensures ok == Accepts(w, |x|, output.Length)
    ensures !ok ==> output[..] == old(output[..])
    ensures ok ==> IsProduct(w, x, output[..])
  {
    hide RowStart, Dot, Unpack, RowAt, RowProduct, Scaled;
    ok := Accepts(w, |x|, output.Length);
    if !ok { return; }
    var bytesPerRow := |x| / 4;
    var j := 0;
    while j < output.Length
      invariant 0 <= j <= output.Length
      invariant forall i: nat :: i < j ==> output[i] == Scaled(w.scale.value, RowProduct(w.packed, x, i))
    {
      ProductOfSlice(w.packed, x, bytesPerRow, output.Length, j);
      var start := RowStart(bytesPerRow, j);
      var pos, neg := ScalarRow(w.packed[start..start + bytesPerRow], x);
      output[j] := Scaled(w.scale.value, pos - neg);
      j := j + 1;
    }
  }

  // ---------------------------------------------------------------------------
  // Table lookup, loops interchanged
  // ---------------------------------------------------------------------------

  lemma TableEntry(v: u8, x0: real, x1: real, x2: real, x3: real)
    ensures [-x0, 0.0, x0, 0.0][Code(v, 0)] + [-x1, 0.0, x1, 0.0][Code(v, 1)]
          + [-x2, 0.0, x2, 0.0][Code(v, 2)] + [-x3, 0.0, x3, 0.0][Code(v, 3)] == Quad(v, x0, x1, x2, x3)
  {
    hide Code;
    SmallTable(Code(v, 0), x0);
    SmallTable(Code(v, 1), x1);
    SmallTable(Code(v, 2), x2);
    SmallTable(Code(v, 3), x3);
    hide Times, Ternary;
  }

  lemma SmallTable(code: nat, x: real)
    requires code < 4
    ensures [-x, 0.0, x, 0.0][code] == Times(Ternary(code), x)
  {
  }

  /** The table for one byte position: what each possible byte would add. */
  method BuildTable(x0: real, x1: real, x2: real, x3: real, table: array<real>)
    requires table.Length == 256
    modifies table
    ensures forall b: u8 :: table[b] == Quad(b, x0, x1, x2, x3)
  {
    hide Quad, Code;
    var t0, t1, t2, t3 := [-x0, 0.0, x0, 0.0], [-x1, 0.0, x1, 0.0], [-x2, 0.0, x2, 0.0], [-x3, 0.0, x3, 0.0];
    var v: nat := 0;
    while v < 256
      invariant 0 <= v <= 256
      invariant forall b: u8 :: b < v ==> table[b] == Quad(b, x0, x1, x2, x3)
    {
      TableEntry(v, x0, x1, x2, x3);
      table[v] := t0[Code(v, 0)] + t1[Code(v, 1)] + t2[Code(v, 2)] + t3[Code(v, 3)];
      v := v + 1;
    }
  }

  /** One byte position of every row, through the table. */
  method AddColumnByte(packed: seq<u8>, bytesPerRow: nat, offset: nat, table: array<real>, output: array<real>)
    requires table.Length == 256 && table != output
    requires offset < bytesPerRow && |packed| == RowStart(bytesPerRow, output.Length)
    modifies output
    ensures forall j: nat :: j < output.Length ==>
      output[j] == old(output[j]) + table[RowAt(packed, bytesPerRow, j)[offset]]
  {
    hide RowStart, RowAt;
    var j := 0;
    while j < output.Length
      invariant 0 <= j <= output.Length
      invariant forall i: nat :: i < j ==>
        output[i] == old(output[i]) + table[RowAt(packed, bytesPerRow, i)[offset]]
      invariant forall i: nat :: j <= i < output.Length ==> output[i] == old(output[i])
    {
      RowFits(packed, bytesPerRow, output.Length, j);
      output[j] := output[j] + table[packed[RowStart(bytesPerRow, j) + offset]];
      j := j + 1;
    }
  }

  /** Every row's product after `bk` blocks and `gp` bytes. */
  ghost predicate AllPartial(packed: seq<u8>, x: seq<real>, bk: nat, gp: nat, out: seq<real>)
    requires |x| % QK == 0 && 128 * bk + 128 <= |x| && gp <= 32
  {
    forall j: nat :: j < |out| ==> out[j] == Partial(RowAt(packed, |x| / 4, j), x, bk, gp)
  }

  /** Every row's product after `bk` whole blocks. */
  ghost predicate AllBlocks(packed: seq<u8>, x: seq<real>, bk: nat, out: seq<real>)
    requires |x| % QK == 0 && 128 * bk <= |x|
  {
    forall j: nat :: j < |out| ==>
      out[j] == Dot(Unpack(RowAt(packed, |x| / 4, j)[..32 * bk]), x[..128 * bk])
  }

  lemma TableStep(packed: seq<u8>, x: seq<real>, bk: nat, gp: nat, before: seq<real>, after: seq<real>)
    requires |x| % QK == 0 && 128 * bk + 128 <= |x| && gp < 32
    requires |before| == |after|
    requires AllPartial(packed, x, bk, gp, before)
    requires var col := 128 * bk + gp;
      forall j: nat :: j < |after| ==>
        after[j] == before[j] + Quad(RowAt(packed, |x| / 4, j)[32 * bk + gp], x[col], x[col + 32], x[col + 64], x[col + 96])
    ensures AllPartial(packed, x, bk, gp + 1, after)
  {
    hide Partial, Quad, RowAt;
    forall j: nat | j < |after|
      ensures after[j] == Partial(RowAt(packed, |x| / 4, j), x, bk, gp + 1)
    {
      PartialStep(RowAt(packed, |x| / 4, j), x, bk, gp);
    }
  }

  lemma BlocksStart(packed: seq<u8>, x: seq<real>, bk: nat, out: seq<real>)
    requires |x| % QK == 0 && 128 * bk + 128 <= |x|
    requires AllBlocks(packed, x, bk, out)
    ensures AllPartial(packed, x, bk, 0, out)
  {
    hide Partial, Dot, Unpack, RowAt;
    forall j: nat | j < |out|
      ensures out[j] == Partial(RowAt(packed, |x| / 4, j), x, bk, 0)
    {
      PartialStep(RowAt(packed, |x| / 4, j), x, bk, 0);
    }
  }

  lemma BlocksEnd(packed: seq<u8>, x: seq<real>, bk: nat, out: seq<real>)
    requires |x| % QK == 0 && 128 * bk + 128 <= |x|
    requires AllPartial(packed, x, bk, 32, out)
    ensures AllBlocks(packed, x, bk + 1, out)
  {
    hide Partial, Dot, Unpack, RowAt;
    forall j: nat | j < |out|
      ensures out[j] == Dot(Unpack(RowAt(packed, |x| / 4, j)[..32 * (bk + 1)]), x[..128 * (bk + 1)])
    {
      BlockDone(RowAt(packed, |x| / 4, j), x, bk);
    }
  }

  method LookupBlock(packed: seq<u8>, x: seq<real>, bk: nat, table: array<real>, output: array<real>)
    requires |x| % QK == 0 && 128 * bk + 128 <= |x|
    requires table.Length == 256 && table != output && |packed| == RowStart(|x| / 4, output.Length)
    requires AllBlocks(packed, x, bk, output[..])
    modifies table, output
    ensures AllBlocks(packed, x, bk + 1, output[..])
  {
    hide Quad, AllPartial, AllBlocks;
    BlocksStart(packed, x, bk, output[..]);
    var gp := 0;
    while gp < BLOCK_BYTES
      invariant 0 <= gp <= BLOCK_BYTES
      invariant AllPartial(packed, x, bk, gp, output[..])
    {
      var col := 128 * bk + gp;
      ghost var before := output[..];
      BuildTable(x[col], x[col + 32], x[col + 64], x[col + 96], table);
      AddColumnByte(packed, |x| / 4, 32 * bk + gp, table, output);
      TableStep(packed, x, bk, gp, before, output[..]);
      gp := gp + 1;
    }
    BlocksEnd(packed, x, bk, output[..]);
  }

  method MatvecLut(w: Weight, x: seq<real>, output: array<real>) returns (ok: bool)
    modifies output
    ensures ok == Accepts(w, |x|, output.Length)
    ensures !ok ==> output[..] == old(output[..])
    ensures ok ==> IsProduct(w, x, output[..])
  {
    ok := Accepts(w, |x|, output.Length);
    if !ok { return; }
    hide AllBlocks, IsProduct;
    Zero(w.packed, x, output);
    var table := new real[256](i => 0.0);
    var bk := 0;
    while bk < |x| / QK
      invariant 0 <= bk <= |x| / QK
      invariant AllBlocks(w.packed, x, bk, output[..])
    {
      LookupBlock(w.packed, x, bk, table, output);
      bk := bk + 1;
    }
    ScaleAll(w, x, output);
  }

  method Zero(packed: seq<u8>, x: seq<real>, output: array<real>)
    requires |x| % QK == 0 && |packed| == RowStart(|x| / 4, output.Length)
    modifies output
    ensures AllBlocks(packed, x, 0, output[..])
  {
    var j := 0;
    while j < output.Length
      invariant 0 <= j <= output.Length
      invariant AllBlocks(packed, x, 0, output[..j])
    {
      output[j] := 0.0;
      EmptyDot(RowAt(packed, |x| / 4, j), x);
      assert output[..j + 1][..j] == output[..j];
      j := j + 1;
    }
    assert output[..j] == output[..];
  }

  method ScaleAll(w: Weight, x: seq<real>, output: array<real>)
    requires |x| % QK == 0 && w.scale.Some? && AllBlocks(w.packed, x, |x| / QK, output[..])
    modifies output
    ensures IsProduct(w, x, output[..])
  {
    hide Dot, Unpack, RowAt;
    ghost var sums := output[..];
    var j := 0;
    while j < output.Length
      invariant 0 <= j <= output.Length
      invariant output[j..] == sums[j..]
      invariant IsProduct(w, x, output[..j])
    {
      assert output[j] == output[j..][0] == sums[j];
      WholeRow(w.packed, x, j, sums);
      output[j] := Scaled(w.scale.value, output[j]);
      assert output[..j + 1] == output[..j] + [output[j]];
      j := j + 1;
    }
    assert output[..j] == output[..];
  }

  lemma WholeRow(packed: seq<u8>, x: seq<real>, j: nat, sums: seq<real>)
    requires |x| % QK == 0 && AllBlocks(packed, x, |x| / QK, sums) && j < |sums|
    ensures sums[j] == RowProduct(packed, x, j)
  {
    hide Dot, Unpack, RowAt;
    var row := RowAt(packed, |x| / 4, j);
    assert row[..32 * (|x| / QK)] == row && x[..128 * (|x| / QK)] == x;
  }
}
