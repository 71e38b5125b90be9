/** The packed weights as compressed sparse rows: building them and multiplying by them. */
module I2sSparse {
  import opened Wrappers
  import opened I2s
  import opened I2sInt
  import opened I2sActivations

  const U16_MAX: nat := 0xFFFF
  const U32_MODULUS: nat := 0x1_0000_0000

  datatype Entry = Entry(column: nat, sign: int)

  datatype SparseWeight = SparseWeight(outDim: nat, inDim: nat, scale: real,
                                       rowStarts: seq<nat>, cols: seq<nat>, signs: seq<int>)

  // ---------------------------------------------------------------------------
  // The non-zero entries of a row
  // ---------------------------------------------------------------------------

  function Kept(b: u8, code: nat, column: nat): seq<Entry>
    requires code < 4
  {
    var t := Ternary(Code(b, code));
    if t == 0 then [] else [Entry(column, t)]
  }

  /** The entries of one byte whose first column is `column`. */
  function ByteEntries(b: u8, column: nat): seq<Entry> {
    Kept(b, 0, column) + Kept(b, 1, column + 32) + Kept(b, 2, column + 64) + Kept(b, 3, column + 96)
  }

  /** The entries of the first `t` bytes, in the order the bytes are read. */
  function Entries(row: seq<u8>, t: nat): seq<Entry>
    requires t <= |row|
  {
    if t == 0 then [] else
    Entries(row, t - 1) + ByteEntries(row[t - 1], Column((t - 1) / 32, (t - 1) % 32, 0))
  }

  lemma EntriesStep(row: seq<u8>, bk: nat, gp: nat)
    requires 32 * bk + gp < |row| && gp < 32
    ensures Entries(row, 32 * bk + gp + 1)
         == Entries(row, 32 * bk + gp) + ByteEntries(row[32 * bk + gp], Column(bk, gp, 0))
  {
    hide ByteEntries;
    var t := 32 * bk + gp;
    assert t / 32 == bk && t % 32 == gp;
  }

  function RowEntries(row: seq<u8>): seq<Entry> {
    Entries(row, |row|)
  }

  function Zip(cols: seq<nat>, signs: seq<int>): (r: seq<Entry>)
    requires |cols| == |signs|
    ensures |r| == |cols|
  {
    seq(|cols|, i requires 0 <= i < |cols| => Entry(cols[i], signs[i]))
  }

  lemma ZipSnoc(cols: seq<nat>, signs: seq<int>, c: nat, s: int)
    requires |cols| == |signs|
    ensures Zip(cols + [c], signs + [s]) == Zip(cols, signs) + [Entry(c, s)]
  {
  }

  /** One byte's four codes, zeros dropped. */
  method AppendByte(b: u8, column: nat, cols: seq<nat>, signs: seq<int>) returns (cols': seq<nat>, signs': seq<int>)
    requires |cols| == |signs| && column + 96 <= U16_MAX
    ensures |cols'| == |signs'| && Zip(cols', signs') == Zip(cols, signs) + ByteEntries(b, column)
  {
    hide Zip, Code, Ternary;
    cols', signs' := cols, signs;
    var k := 0;
    ghost var done: seq<Entry> := [];
    while k < 4
      invariant 0 <= k <= 4 && |cols'| == |signs'|
      invariant Zip(cols', signs') == Zip(cols, signs) + done
      invariant done == (if k == 0 then [] else if k == 1 then Kept(b, 0, column)
                         else if k == 2 then Kept(b, 0, column) + Kept(b, 1, column + 32)
                         else if k == 3 then Kept(b, 0, column) + Kept(b, 1, column + 32) + Kept(b, 2, column + 64)
                         else ByteEntries(b, column))
    {
      var t := Ternary(Code(b, k));
      var c := (column + 32 * k) % (U16_MAX + 1);
      ghost var was := done;
      done := done + Kept(b, k, column + 32 * k);
      if t != 0 {
        ZipSnoc(cols', signs', c, t);
        cols', signs' := cols' + [c], signs' + [t];
        assert Zip(cols, signs) + was + [Entry(c, t)] == Zip(cols, signs) + done;
      } else {
        assert done == was;
      }
      k := k + 1;
    }
  }

  lemma NothingRead(row: seq<u8>)
    ensures Entries(row, 0) == []
  {
  }

  method AppendRowNonzeros(row: seq<u8>, cols: seq<nat>, signs: seq<int>) returns (cols': seq<nat>, signs': seq<int>)
    requires |cols| == |signs| && |row| % BLOCK_BYTES == 0 && 4 * |row| <= U16_MAX
    ensures |cols'| == |signs'| && Zip(cols', signs') == Zip(cols, signs) + RowEntries(row)
  {
    hide Zip, ByteEntries, Entries;
    cols', signs' := cols, signs;
    var bk := 0;
    NothingRead(row);
    assert Zip(cols, signs) + [] == Zip(cols, signs);
    while bk < |row| / BLOCK_BYTES
      invariant 0 <= bk <= |row| / BLOCK_BYTES && |cols'| == |signs'|
      invariant Zip(cols', signs') == Zip(cols, signs) + Entries(row, 32 * bk)
    {
      var gp := 0;
      while gp < BLOCK_BYTES
        invariant 0 <= gp <= BLOCK_BYTES && |cols'| == |signs'|
        invariant Zip(cols', signs') == Zip(cols, signs) + Entries(row, 32 * bk + gp)
      {
        var t := 32 * bk + gp;
        EntriesStep(row, bk, gp);
        cols', signs' := AppendByte(row[t], 128 * bk + gp, cols', signs');
        assert Zip(cols, signs) + Entries(row, t) + ByteEntries(row[t], 128 * bk + gp)
            == Zip(cols, signs) + Entries(row, t + 1);
        gp := gp + 1;
      }
      bk := bk + 1;
    }
  }

  // ---------------------------------------------------------------------------
  // The whole matrix
  // ---------------------------------------------------------------------------

  /** The entries of the first `n` rows, one after another. */
  function AllEntries(packed: seq<u8>, bytesPerRow: nat, n: nat): seq<Entry> {
    if n == 0 then [] else
    AllEntries(packed, bytesPerRow, n - 1) + RowEntries(RowAt(packed, bytesPerRow, n - 1))
  }

  /** Where each row's entries start and end, as 32-bit offsets. */
  ghost predicate StartsAt(starts: seq<nat>, packed: seq<u8>, bytesPerRow: nat) {
    forall j: nat :: j < |starts| ==> starts[j] == |AllEntries(packed, bytesPerRow, j)| % U32_MODULUS
  }

  ghost predicate Represents(sw: SparseWeight, w: Weight) {
    && |w.shape| == 2 && sw.inDim == w.shape[0] && sw.outDim == w.shape[1] && 0 < sw.inDim <= U16_MAX && sw.inDim % QK == 0
    && w.scale == Some(sw.scale)
    && |sw.cols| == |sw.signs|
    && Zip(sw.cols, sw.signs) == AllEntries(w.packed, sw.inDim / 4, sw.outDim)
    && |sw.rowStarts| == sw.outDim + 1
    && StartsAt(sw.rowStarts, w.packed, sw.inDim / 4)
  }

  /** What the sparse builder accepts: a narrower check than the dense kernels', on the width alone. */
  predicate AcceptsSparse(w: Weight) {
    |w.shape| == 2 && w.shape[0] > 0 && w.shape[0] % QK == 0 && w.shape[0] <= U16_MAX && w.scale.Some?
  }

  method FromI2s(w: Weight) returns (r: Option<SparseWeight>)
    requires |w.shape| == 2 ==> |w.packed| >= RowStart(w.shape[0] / 4, w.shape[1])
    ensures r.Some? == AcceptsSparse(w)
    ensures r.Some? ==> Represents(r.value, w)
  {
    hide Zip, RowEntries, RowAt, RowStart;
    if !AcceptsSparse(w) { return None; }
    var inDim, outDim := w.shape[0], w.shape[1];
    var bytesPerRow := inDim / 4;
    var rowStarts: seq<nat> := [0];
    var cols: seq<nat>, signs: seq<int> := [], [];
    EmptyZip();
    var j := 0;
    while j < outDim
      invariant 0 <= j <= outDim && |cols| == |signs|
      invariant Zip(cols, signs) == AllEntries(w.packed, bytesPerRow, j)
      invariant |rowStarts| == j + 1 && StartsAt(rowStarts, w.packed, bytesPerRow)
    {
      RowFits(w.packed, bytesPerRow, outDim, j);
      var start := RowStart(bytesPerRow, j);
      cols, signs := AppendRowNonzeros(w.packed[start..start + bytesPerRow], cols, signs);
      ghost var was := rowStarts;
      rowStarts := rowStarts + [|cols| % U32_MODULUS];
      assert |Zip(cols, signs)| == |cols|;
      assert forall i: nat :: i < |was| ==> rowStarts[i] == was[i];
      j := j + 1;
    }
    r := Some(SparseWeight(outDim, inDim, w.scale.value, rowStarts, cols, signs));
  }

  lemma EmptyZip()
    ensures Zip([], []) == []
  {
  }

  lemma {:induction false} AllEntriesPrefix(packed: seq<u8>, bytesPerRow: nat, j: nat, n: nat)
    requires j <= n
    ensures AllEntries(packed, bytesPerRow, j) <= AllEntries(packed, bytesPerRow, n)
  {
    hide RowEntries, RowAt;
    if j < n {
      AllEntriesPrefix(packed, bytesPerRow, j, n - 1);
      var before, row := AllEntries(packed, bytesPerRow, n - 1), RowEntries(RowAt(packed, bytesPerRow, n - 1));
      assert AllEntries(packed, bytesPerRow, n) == before + row;
    }
  }

  /** A row's entries are what is between where it and the next row start. */
  lemma RowsSlice(packed: seq<u8>, bytesPerRow: nat, j: nat, n: nat)
    requires j < n
    ensures var all := AllEntries(packed, bytesPerRow, n);
      var start, end := |AllEntries(packed, bytesPerRow, j)|, |AllEntries(packed, bytesPerRow, j + 1)|;
      start <= end <= |all| && all[start..end] == RowEntries(RowAt(packed, bytesPerRow, j))
  {
    hide RowEntries, RowAt;
    var before, row := AllEntries(packed, bytesPerRow, j), RowEntries(RowAt(packed, bytesPerRow, j));
    var after := AllEntries(packed, bytesPerRow, j + 1);
    assert after == before + row;
    AllEntriesPrefix(packed, bytesPerRow, j + 1, n);
    hide AllEntries;
    var all := AllEntries(packed, bytesPerRow, n);
    assert all[..|after|] == after;
    assert all[|before|..|after|] == after[|before|..] == row;
  }

  /** The entries the kernel walks for row `j`: none when the stored start lies past the stored end. */
  function RowSlice(sw: SparseWeight, j: nat): seq<Entry>
    requires |sw.cols| == |sw.signs| && j + 1 < |sw.rowStarts| && sw.rowStarts[j + 1] <= |sw.cols|
  {
    if sw.rowStarts[j] <= sw.rowStarts[j + 1] then Zip(sw.cols, sw.signs)[sw.rowStarts[j]..sw.rowStarts[j + 1]] else []
  }

  /** No stored end lies past the entries. */
  lemma EndsFit(sw: SparseWeight, w: Weight, j: nat)
    requires Represents(sw, w) && j <= sw.outDim
    ensures |sw.cols| == |sw.signs| && j < |sw.rowStarts| && sw.rowStarts[j] <= |sw.cols|
    ensures |AllEntries(w.packed, sw.inDim / 4, j)| <= |sw.cols| == |AllEntries(w.packed, sw.inDim / 4, sw.outDim)|
    ensures sw.rowStarts[j] == |AllEntries(w.packed, sw.inDim / 4, j)| % U32_MODULUS
  {
    hide AllEntries, RowEntries, RowAt;
    AllEntriesPrefix(w.packed, sw.inDim / 4, j, sw.outDim);
    assert |Zip(sw.cols, sw.signs)| == |sw.cols|;
  }

  /** Row `j`'s slice is row `j`. */
  ghost predicate RowIsWhole(sw: SparseWeight, w: Weight, j: nat)
    requires Represents(sw, w) && j < sw.outDim
  {
    EndsFit(sw, w, j + 1);
    RowSlice(sw, j) == RowEntries(RowAt(w.packed, sw.inDim / 4, j))
  }

  /** With fewer entries than a 32-bit offset can count, a row's slice is the row's entries. */
  lemma SliceOfRow(sw: SparseWeight, w: Weight, j: nat)
    requires Represents(sw, w) && j < sw.outDim && |sw.cols| < U32_MODULUS
    ensures RowIsWhole(sw, w, j)
  {
    hide RowEntries, RowAt, AllEntries, Zip, Represents;
    RowsSlice(w.packed, sw.inDim / 4, j, sw.outDim);
    EndsFit(sw, w, j);
    EndsFit(sw, w, j + 1);
    EntriesAreStored(sw, w);
  }

  lemma EntriesAreStored(sw: SparseWeight, w: Weight)
    requires Represents(sw, w)
    ensures |sw.cols| == |sw.signs| && Zip(sw.cols, sw.signs) == AllEntries(w.packed, sw.inDim / 4, sw.outDim)
  {
  }

  /** A row of ternary values has no more entries than columns. */
  lemma RowIsShort(row: seq<u8>)
    requires |row| % BLOCK_BYTES == 0
    ensures |RowEntries(row)| <= 4 * |row|
  {
    hide RowEntries, Unpack;
    EntriesCountNonZeros(row);
    NonZerosFit(Unpack(row));
  }

  lemma {:induction false} NonZerosFit(w: seq<int>)
    ensures NonZeros(w) <= |w|
  {
    if w != [] { NonZerosFit(w[..|w| - 1]); }
  }

  /** The row in which the count of entries passes `bound`. */
  lemma {:induction false} PassingRow(packed: seq<u8>, bytesPerRow: nat, n: nat, bound: nat) returns (j: nat)
    requires 0 < bound <= |AllEntries(packed, bytesPerRow, n)|
    ensures j < n && |AllEntries(packed, bytesPerRow, j)| < bound <= |AllEntries(packed, bytesPerRow, j + 1)|
  {
    hide RowEntries, RowAt;
    if |AllEntries(packed, bytesPerRow, n - 1)| < bound {
      j := n - 1;
    } else {
      j := PassingRow(packed, bytesPerRow, n - 1, bound);
    }
  }

  /** In that row the 32-bit offset wraps, and the row is not empty. */
  lemma CountWraps(packed: seq<u8>, bytesPerRow: nat, n: nat) returns (j: nat)
    requires bytesPerRow % BLOCK_BYTES == 0 && 4 * bytesPerRow <= U16_MAX
    requires |AllEntries(packed, bytesPerRow, n)| >= U32_MODULUS
    ensures j < n && |RowEntries(RowAt(packed, bytesPerRow, j))| > 0
    ensures |AllEntries(packed, bytesPerRow, j)| % U32_MODULUS > |AllEntries(packed, bytesPerRow, j + 1)| % U32_MODULUS
  {
    hide RowEntries, RowAt, AllEntries;
    j := PassingRow(packed, bytesPerRow, n, U32_MODULUS);
    var row := RowEntries(RowAt(packed, bytesPerRow, j));
    RowsSlice(packed, bytesPerRow, j, n);
    assert |AllEntries(packed, bytesPerRow, j + 1)| == |AllEntries(packed, bytesPerRow, j)| + |row|;
    RowIsShort(RowAt(packed, bytesPerRow, j));
    OffsetsCross(|AllEntries(packed, bytesPerRow, j)|, |row|);
  }

  /** From 2^32 entries on the row in which the count passes 2^32 has its start past its end. */
  lemma SliceIsLost(sw: SparseWeight, w: Weight) returns (j: nat)
    requires Represents(sw, w) && |sw.cols| >= U32_MODULUS
    ensures j < sw.outDim && !RowIsWhole(sw, w, j)
    ensures sw.rowStarts[j] > sw.rowStarts[j + 1]
  {
    hide *;
    RowBytesFit(sw, w);
    EndsFit(sw, w, sw.outDim);
    j := CountWraps(w.packed, sw.inDim / 4, sw.outDim);
    EndsFit(sw, w, j);
    EndsFit(sw, w, j + 1);
    EmptySlice(sw, w, j);
  }

  lemma OffsetsCross(count: nat, more: nat)
    requires count < U32_MODULUS <= count + more && more <= U16_MAX
    ensures count % U32_MODULUS > (count + more) % U32_MODULUS
  {
  }

  lemma RowBytesFit(sw: SparseWeight, w: Weight)
    requires Represents(sw, w)
    ensures sw.inDim / 4 % BLOCK_BYTES == 0 && 4 * (sw.inDim / 4) <= U16_MAX
  {
    hide AllEntries, Zip, StartsAt;
  }

  lemma EmptySlice(sw: SparseWeight, w: Weight, j: nat)
    requires Represents(sw, w) && j < sw.outDim && sw.rowStarts[j] > sw.rowStarts[j + 1]
    requires |RowEntries(RowAt(w.packed, sw.inDim / 4, j))| > 0
    ensures !RowIsWhole(sw, w, j)
  {
    hide RowEntries, RowAt, AllEntries, Zip, StartsAt;
  }

  /** Every row's slice is that row exactly while 32-bit offsets can count the entries. */
  lemma SlicesAreRows(sw: SparseWeight, w: Weight)
    requires Represents(sw, w)
    ensures (forall j: nat :: j < sw.outDim ==> RowIsWhole(sw, w, j)) <==> |sw.cols| < U32_MODULUS
  {
    hide Represents, RowIsWhole;
    if |sw.cols| < U32_MODULUS {
      forall j: nat | j < sw.outDim ensures RowIsWhole(sw, w, j) { SliceOfRow(sw, w, j); }
    } else {
      var j := SliceIsLost(sw, w);
    }
  }

  /** Non-zero weights in the first `n` rows of packed weights. */
  function NonZeroCount(packed: seq<u8>, bytesPerRow: nat, n: nat): nat
    requires bytesPerRow % BLOCK_BYTES == 0
  {
    if n == 0 then 0 else
    NonZeroCount(packed, bytesPerRow, n - 1) + NonZeros(Unpack(RowAt(packed, bytesPerRow, n - 1)))
  }

  lemma {:induction false} EntriesAreCounted(packed: seq<u8>, bytesPerRow: nat, n: nat)
    requires bytesPerRow % BLOCK_BYTES == 0
    ensures |AllEntries(packed, bytesPerRow, n)| == NonZeroCount(packed, bytesPerRow, n)
  {
    hide RowEntries, RowAt, Unpack, NonZeros;
    if n > 0 {
      EntriesAreCounted(packed, bytesPerRow, n - 1);
      EntriesCountNonZeros(RowAt(packed, bytesPerRow, n - 1));
    }
  }

  lemma WholeBlocks(width: nat)
    requires width % QK == 0
    ensures width / 4 % BLOCK_BYTES == 0
  {
  }

  /** The values of a weight that are not zero. */
  function NonZeroTotal(w: Weight): nat
    requires |w.shape| == 2 && w.shape[0] % QK == 0
  {
    WholeBlocks(w.shape[0]);
    NonZeroCount(w.packed, w.shape[0] / 4, w.shape[1])
  }

  /** What a caller can check of a weight before making it sparse. */
  predicate FewNonZeros(w: Weight)
    requires |w.shape| == 2 && w.shape[0] % QK == 0
  {
    NonZeroTotal(w) < U32_MODULUS
  }

  /** The entries the builder stores are the weight's non-zero values, one each. */
  lemma StoredAreNonZeros(sw: SparseWeight, w: Weight)
    requires Represents(sw, w)
    ensures |w.shape| == 2 && w.shape[0] % QK == 0 && |sw.cols| == NonZeroTotal(w)
    ensures FewNonZeros(w) <==> |sw.cols| < U32_MODULUS
  {
    hide AllEntries, NonZeroCount, RowAt, RowEntries, Zip, StartsAt;
    RowBytesFit(sw, w);
    EndsFit(sw, w, sw.outDim);
    EntriesAreCounted(w.packed, sw.inDim / 4, sw.outDim);
  }

  const DENSE_WIDTH: nat := 65408
  const DENSE_ROWS: nat := 65665

  /** A matrix of the widest accepted rows, of nothing but minus ones, with more than 2^32 of them. */
  predicate IsDense(w: Weight) {
    && w.shape == [DENSE_WIDTH, DENSE_ROWS] && |w.packed| == RowStart(DENSE_WIDTH / 4, DENSE_ROWS) && w.scale.Some?
    && forall i :: 0 <= i < |w.packed| ==> w.packed[i] == 0
  }

  /** The sparse builder takes it. */
  lemma DenseIsAccepted() returns (w: Weight)
    ensures IsDense(w) && AcceptsSparse(w)
  {
    w := Weight([DENSE_WIDTH, DENSE_ROWS], seq(RowStart(DENSE_WIDTH / 4, DENSE_ROWS), _ => 0), Some(1.0));
  }

  /** A row of zero bytes is all minus ones. */
  lemma {:induction false} DenseRow(row: seq<u8>, t: nat)
    requires t <= |row| && forall i :: 0 <= i < |row| ==> row[i] == 0
    ensures |Entries(row, t)| == 4 * t
  {
    if t > 0 {
      DenseRow(row, t - 1);
      assert Code(0, 0) == 0 && Code(0, 1) == 0 && Code(0, 2) == 0 && Code(0, 3) == 0;
    }
  }

  lemma {:induction false} DenseCount(packed: seq<u8>, bytesPerRow: nat, n: nat)
    requires forall i :: 0 <= i < |packed| ==> packed[i] == 0
    ensures |AllEntries(packed, bytesPerRow, n)| == 4 * bytesPerRow * n
  {
    hide Entries;
    if n > 0 {
      DenseCount(packed, bytesPerRow, n - 1);
      DenseRow(RowAt(packed, bytesPerRow, n - 1), bytesPerRow);
      assert 4 * bytesPerRow * n == 4 * bytesPerRow * (n - 1) + 4 * bytesPerRow;
    }
  }

  /** An accepted weight past the limit: its last row is walked as empty, though none of its weights is zero. */
  lemma LastRowIsLost(sw: SparseWeight, w: Weight)
    requires Represents(sw, w) && IsDense(w)
    ensures |sw.cols| == DENSE_WIDTH * DENSE_ROWS >= U32_MODULUS
    ensures sw.outDim == DENSE_ROWS && |sw.rowStarts| == DENSE_ROWS + 1
    ensures sw.rowStarts[DENSE_ROWS - 1] > sw.rowStarts[DENSE_ROWS]
    ensures |RowEntries(RowAt(w.packed, DENSE_WIDTH / 4, DENSE_ROWS - 1))| == DENSE_WIDTH
  {
    hide AllEntries, RowAt, Entries, Zip;
    DenseCount(w.packed, DENSE_WIDTH / 4, DENSE_ROWS - 1);
    DenseCount(w.packed, DENSE_WIDTH / 4, DENSE_ROWS);
    EndsFit(sw, w, DENSE_ROWS - 1);
    EndsFit(sw, w, DENSE_ROWS);
    RowsSlice(w.packed, DENSE_WIDTH / 4, DENSE_ROWS - 1, DENSE_ROWS);
  }

  // ---------------------------------------------------------------------------
  // Multiplying
  // ---------------------------------------------------------------------------

  function EntryProducts(entries: seq<Entry>, q: seq<int>): (r: seq<int>)
    requires forall i :: 0 <= i < |entries| ==> entries[i].column < |q|
    ensures |r| == |entries|
  {
    seq(|entries|, i requires 0 <= i < |entries| => entries[i].sign * q[entries[i].column])
  }

  predicate InWidth(entries: seq<Entry>, width: nat) {
    forall i :: 0 <= i < |entries| ==> entries[i].column < width
  }

  function EntryDot(entries: seq<Entry>, q: seq<int>): int
    requires InWidth(entries, |q|)
  {
    Sum(EntryProducts(entries, q))
  }

  lemma EntryDotConcat(a: seq<Entry>, b: seq<Entry>, q: seq<int>)
    requires InWidth(a, |q|) && InWidth(b, |q|)
    ensures InWidth(a + b, |q|) && EntryDot(a + b, q) == EntryDot(a, q) + EntryDot(b, q)
  {
    assert EntryProducts(a + b, q) == EntryProducts(a, q) + EntryProducts(b, q);
    SumConcat(EntryProducts(a, q), EntryProducts(b, q));
  }

  lemma KeptDot(b: u8, code: nat, column: nat, q: seq<int>)
    requires code < 4 && column < |q|
    ensures InWidth(Kept(b, code, column), |q|)
    ensures EntryDot(Kept(b, code, column), q) as real == Times(Ternary(Code(b, code)), Reals(q)[column])
  {
    var t := Ternary(Code(b, code));
    if t == 0 {
      assert EntryProducts(Kept(b, code, column), q) == [];
    } else {
      assert EntryProducts(Kept(b, code, column), q) == [] + [t * q[column]];
      SumSnoc([], t * q[column]);
    }
    RealProduct(t, q[column]);
  }

  /** One byte's entries against the activations. */
  lemma ByteDot(b: u8, column: nat, q: seq<int>)
    requires column + 96 < |q|
    ensures InWidth(ByteEntries(b, column), |q|)
    ensures var x := Reals(q);
      EntryDot(ByteEntries(b, column), q) as real == Quad(b, x[column], x[column + 32], x[column + 64], x[column + 96])
  {
    hide Kept, EntryDot, Times, Ternary, Code, Reals;
    KeptDot(b, 0, column, q);
    KeptDot(b, 1, column + 32, q);
    KeptDot(b, 2, column + 64, q);
    KeptDot(b, 3, column + 96, q);
    var k0, k1, k2, k3 := Kept(b, 0, column), Kept(b, 1, column + 32), Kept(b, 2, column + 64), Kept(b, 3, column + 96);
    EntryDotConcat(k0, k1, q);
    EntryDotConcat(k0 + k1, k2, q);
    EntryDotConcat(k0 + k1 + k2, k3, q);
  }

  /** Byte by byte the entries' product is the exact partial product. */
  lemma {:induction false} EntriesDot(row: seq<u8>, q: seq<int>, bk: nat, gp: nat)
    requires |row| % BLOCK_BYTES == 0 && |q| == 4 * |row| && 32 * bk + 32 <= |row| && gp <= 32
    ensures InWidth(Entries(row, 32 * bk + gp), |q|)
    ensures EntryDot(Entries(row, 32 * bk + gp), q) as real == Partial(row, Reals(q), bk, gp)
    decreases bk, gp
  {
    hide EntryDot, Partial, ByteEntries, Reals, Quad, Dot, Unpack, InWidth, Entries;
    if gp > 0 {
      EntriesDot(row, q, bk, gp - 1);
      var t := 32 * bk + (gp - 1);
      EntriesStep(row, bk, gp - 1);
      var column := 128 * bk + (gp - 1);
      ByteDot(row[t], column, q);
      EntryDotConcat(Entries(row, t), ByteEntries(row[t], column), q);
      PartialStep(row, Reals(q), bk, gp - 1);
    } else if bk > 0 {
      EntriesDot(row, q, bk - 1, 32);
      BlockDone(row, Reals(q), bk - 1);
      PartialStep(row, Reals(q), bk, 0);
    } else {
      NoEntries(row, q);
      PartialStep(row, Reals(q), 0, 0);
    }
  }

  lemma NoEntries(row: seq<u8>, q: seq<int>)
    ensures InWidth(Entries(row, 0), |q|) && EntryDot(Entries(row, 0), q) == 0
    ensures Dot(Unpack(row[..32 * 0]), Reals(q)[..128 * 0]) == 0.0
  {
  }

  /** Dropping the zeros does not change the product. */
  lemma SparseDotIsDense(row: seq<u8>, q: seq<int>)
    requires |row| % BLOCK_BYTES == 0 && |q| == 4 * |row|
    ensures InWidth(RowEntries(row), |q|)
    ensures EntryDot(RowEntries(row), q) == DotInt(Unpack(row), q)
  {
    hide EntryDot, Partial, Reals, Dot, Unpack, DotInt, Entries;
    DotOfReals(Unpack(row), q);
    if row == [] {
      NoEntries(row, q);
      assert row[..0] == row && Reals(q)[..0] == Reals(q);
    } else {
      var bk := |row| / 32 - 1;
      EntriesDot(row, q, bk, 32);
      BlockDone(row, Reals(q), bk);
      assert row[..32 * (bk + 1)] == row && Reals(q)[..128 * (bk + 1)] == Reals(q);
    }
  }

  /** One row of the product: its entries, added up in 32 bits. */
  method SparseRow(cols: seq<nat>, signs: seq<int>, start: nat, end: nat, q: seq<int>) returns (sum: int)
    requires |cols| == |signs| && end <= |cols|
    requires InWidth(if start <= end then Zip(cols, signs)[start..end] else [], |q|)
    ensures sum == Wrap32(EntryDot(if start <= end then Zip(cols, signs)[start..end] else [], q))
  {
    hide Wrap32, Sum;
    ghost var entries: seq<Entry> := if start <= end then Zip(cols, signs)[start..end] else [];
    ghost var products := EntryProducts(entries, q);
    sum := 0;
    NoProducts(products);
    var idx := start;
    while idx < end
      invariant start <= idx && (start <= end ==> idx <= end) && (start > end ==> idx == start)
      invariant sum == Wrap32(Sum(products[..idx - start]))
    {
      assert entries[idx - start] == Entry(cols[idx], signs[idx]);
      var term := signs[idx] * q[cols[idx]];
      assert products[..idx + 1 - start] == products[..idx - start] + [term];
      SumSnoc(products[..idx - start], term);
      WrapAdd(Sum(products[..idx - start]), term);
      sum := Wrap32(sum + term);
      idx := idx + 1;
    }
    assert products[..idx - start] == products;
  }

  lemma NoProducts(products: seq<int>)
    ensures Wrap32(Sum(products[..0])) == 0
  {
  }

  /** What the kernel's loop over row `j` comes to. */
  ghost function SliceDot(sw: SparseWeight, w: Weight, q: seq<int>, j: nat): int
    requires Represents(sw, w) && |q| == sw.inDim && j < sw.outDim
  {
    EndsFit(sw, w, j + 1);
    SliceInWidth(sw, w, |q|, j);
    Wrap32(EntryDot(RowSlice(sw, j), q))
  }

  lemma SliceInWidth(sw: SparseWeight, w: Weight, width: nat, j: nat)
    requires Represents(sw, w) && width == sw.inDim && j < sw.outDim
    ensures j + 1 < |sw.rowStarts| && sw.rowStarts[j + 1] <= |sw.cols| && InWidth(RowSlice(sw, j), width)
  {
    hide AllEntries, Zip;
    EndsFit(sw, w, j + 1);
    AllInWidth(w.packed, width, sw.outDim);
  }

  lemma {:induction false} AllInWidth(packed: seq<u8>, width: nat, n: nat)
    requires width % QK == 0
    ensures InWidth(AllEntries(packed, width / 4, n), width)
  {
    hide RowEntries, RowAt;
    if n > 0 {
      AllInWidth(packed, width, n - 1);
      RowEntriesDot(packed, Ones(width, 0), n - 1);
    }
  }

  /** A whole slice gives the dense row's integer. */
  lemma RowOfSparse(sw: SparseWeight, w: Weight, q: seq<int>, j: nat)
    requires Represents(sw, w) && |q| == sw.inDim && j < sw.outDim && RowIsWhole(sw, w, j)
    ensures |q| % QK == 0 && SliceDot(sw, w, q, j) == RowDot(w.packed, q, j)
  {
    hide Wrap32, EntryDot, RowEntries, RowDot, RowAt, RowSlice, InWidth, AllEntries, StartsAt;
    RowEntriesDot(w.packed, q, j);
  }

  lemma RowEntriesDot(packed: seq<u8>, q: seq<int>, j: nat)
    requires |q| % QK == 0
    ensures InWidth(RowEntries(RowAt(packed, |q| / 4, j)), |q|)
    ensures Wrap32(EntryDot(RowEntries(RowAt(packed, |q| / 4, j)), q)) == RowDot(packed, q, j)
  {
    hide Wrap32, EntryDot, DotInt, RowEntries, Unpack, RowAt, InWidth;
    SparseDotIsDense(RowAt(packed, |q| / 4, j), q);
  }

  /**
    The sparse product of given activations, row by row over the stored slices; with fewer
    than 2^32 non-zero weights that is what the vector kernels compute from the packed weights.
    */
  method SparseMatvecI8(sw: SparseWeight, ghost w: Weight, q: seq<int>, inputScale: real, out: array<real>)
    returns (ok: bool)
    requires Represents(sw, w)
    modifies out
    ensures ok == (|q| == sw.inDim && out.Length == sw.outDim)
    ensures !ok ==> out[..] == old(out[..])
    ensures ok ==> |w.shape| == 2 && w.shape[0] % QK == 0 && |q| % QK == 0
    ensures ok ==> forall j: nat :: j < out.Length ==>
      && out[j] == Scaled(Scaled(sw.scale, inputScale), SliceDot(sw, w, q, j) as real)
      && (FewNonZeros(w) ==> out[j] == Scaled(Scaled(sw.scale, inputScale), RowDot(w.packed, q, j) as real))
  {
    hide Represents, RowDot, Scaled, EntryDot, Wrap32, InWidth, RowIsWhole, SliceDot, FewNonZeros;
    ok := |q| == sw.inDim && out.Length == sw.outDim;
    if !ok { return; }
    var combined := Scaled(sw.scale, inputScale);
    StartsFit(sw, w);
    var j := 0;
    while j < sw.outDim
      invariant 0 <= j <= sw.outDim
      invariant forall i: nat :: i < j ==> out[i] == Scaled(combined, SliceDot(sw, w, q, i) as real)
    {
      SliceDotIs(sw, w, q, j);
      var sum := SparseRow(sw.cols, sw.signs, sw.rowStarts[j], sw.rowStarts[j + 1], q);
      out[j] := Scaled(combined, sum as real);
      j := j + 1;
    }
    StoredAreNonZeros(sw, w);
    if |sw.cols| < U32_MODULUS { ProductsAgree(sw, w, q); }
  }

  lemma ProductsAgree(sw: SparseWeight, w: Weight, q: seq<int>)
    requires Represents(sw, w) && |q| == sw.inDim && |sw.cols| < U32_MODULUS
    ensures |q| % QK == 0 && forall j: nat :: j < sw.outDim ==> SliceDot(sw, w, q, j) == RowDot(w.packed, q, j)
  {
    hide *;
    StartsFit(sw, w);
    forall j: nat | j < sw.outDim ensures SliceDot(sw, w, q, j) == RowDot(w.packed, q, j) {
      SliceOfRow(sw, w, j);
      RowOfSparse(sw, w, q, j);
    }
  }

  lemma SliceDotIs(sw: SparseWeight, w: Weight, q: seq<int>, j: nat)
    requires Represents(sw, w) && |q| == sw.inDim && j < sw.outDim
    ensures j + 1 < |sw.rowStarts| && |sw.cols| == |sw.signs| && sw.rowStarts[j + 1] <= |sw.cols| && InWidth(RowSlice(sw, j), |q|)
    ensures SliceDot(sw, w, q, j) == Wrap32(EntryDot(RowSlice(sw, j), q))
  {
    hide AllEntries, Zip, EntryDot, Wrap32;
    EndsFit(sw, w, j + 1);
    SliceInWidth(sw, w, |q|, j);
  }

  lemma StartsFit(sw: SparseWeight, w: Weight)
    requires Represents(sw, w)
    ensures |sw.cols| == |sw.signs| && |sw.rowStarts| == sw.outDim + 1 && sw.inDim % QK == 0
  {
  }

  /** The kernel's integer for row `j` is the dense row's. */
  ghost predicate Agrees(sw: SparseWeight, w: Weight, q: seq<int>, j: nat)
    requires Represents(sw, w) && |q| == sw.inDim && j < sw.outDim
  {
    StartsFit(sw, w);
    SliceDot(sw, w, q, j) == RowDot(w.packed, q, j)
  }

  /** One activation of 1 at column `c`. */
  function Unit(n: nat, c: nat): (q: seq<int>)
    ensures |q| == n && IsAct(q)
  {
    seq(n, i => if i == c then 1 else 0)
  }

  lemma UnitDot(w: seq<int>, c: nat)
    requires c < |w|
    ensures DotInt(w, Unit(|w|, c)) == w[c]
  {
    hide Sum;
    var products := Products(w, Unit(|w|, c));
    forall i | 0 <= i < |w| ensures products[i] == if i == c then w[c] else 0 {
      if i != c { assert w[i] * 0 == 0; }
    }
    var before, after := Ones(c, 0), Ones(|w| - c - 1, 0);
    assert products == before + [w[c]] + after;
    SumOfOnes(c, 0);
    SumOfOnes(|w| - c - 1, 0);
    SumSnoc(before, w[c]);
    SumConcat(before + [w[c]], after);
  }

  /** A row with an entry has a column that tells it from an empty one. */
  lemma ColumnTells(row: seq<u8>) returns (c: nat)
    requires |row| % BLOCK_BYTES == 0 && |RowEntries(row)| > 0 && 4 * |row| <= U16_MAX
    ensures c < 4 * |row| && |Unpack(row)| == 4 * |row|
    ensures DotInt(Unpack(row), Unit(4 * |row|, c)) == 1 || DotInt(Unpack(row), Unit(4 * |row|, c)) == -1
  {
    hide Unpack, DotInt, Entries, Unit;
    EntriesHold(row, |row| / 32, 0);
    c := RowEntries(row)[0].column;
    UnitDot(Unpack(row), c);
  }

  lemma RowDotOfRow(packed: seq<u8>, q: seq<int>, j: nat)
    requires |q| % QK == 0
    ensures |Unpack(RowAt(packed, |q| / 4, j))| == |q|
    ensures -0x8000_0000 <= DotInt(Unpack(RowAt(packed, |q| / 4, j)), q) < 0x8000_0000 ==>
      RowDot(packed, q, j) == DotInt(Unpack(RowAt(packed, |q| / 4, j)), q)
  {
    hide Unpack, DotInt, RowAt;
  }

  /** From 2^32 entries on there is a row whose product is lost for some activation: 0 instead of 1 or -1. */
  lemma ProductIsLost(sw: SparseWeight, w: Weight) returns (q: seq<int>, j: nat)
    requires Represents(sw, w) && |sw.cols| >= U32_MODULUS
    ensures |q| == sw.inDim && |q| % QK == 0 && IsAct(q) && j < sw.outDim
    ensures SliceDot(sw, w, q, j) == 0
    ensures RowDot(w.packed, q, j) == 1 || RowDot(w.packed, q, j) == -1
  {
    hide Represents, SliceDot, RowDot, AllEntries, RowEntries, RowAt, Unpack, DotInt, IsAct, Unit, Wrap32;
    StartsFit(sw, w);
    RowBytesFit(sw, w);
    EndsFit(sw, w, sw.outDim);
    j := CountWraps(w.packed, sw.inDim / 4, sw.outDim);
    EndsFit(sw, w, j);
    EndsFit(sw, w, j + 1);
    var c := ColumnTells(RowAt(w.packed, sw.inDim / 4, j));
    q := Unit(sw.inDim, c);
    SliceDotIs(sw, w, q, j);
    NoEntryDot(q);
    RowDotOfRow(w.packed, q, j);
  }

  lemma NoEntryDot(q: seq<int>)
    ensures InWidth([], |q|) && Wrap32(EntryDot([], q)) == 0
  {
  }

  /**
    The sparse kernel computes the dense integer products, whatever the activations and the
    row, exactly for weights with fewer than 2^32 non-zero values.
    */
  lemma SparseIsDense(sw: SparseWeight, w: Weight)
    requires Represents(sw, w)
    ensures |w.shape| == 2 && w.shape[0] % QK == 0
    ensures (forall q: seq<int>, j: nat :: |q| == sw.inDim && IsAct(q) && j < sw.outDim ==> Agrees(sw, w, q, j))
       <==> FewNonZeros(w)
  {
    hide Represents, SliceDot, RowDot, IsAct, FewNonZeros;
    StartsFit(sw, w);
    StoredAreNonZeros(sw, w);
    if |sw.cols| < U32_MODULUS {
      forall q: seq<int>, j: nat | |q| == sw.inDim && IsAct(q) && j < sw.outDim ensures Agrees(sw, w, q, j) {
        ProductsAgree(sw, w, q);
      }
    } else {
      var q, j := ProductIsLost(sw, w);
      assert !Agrees(sw, w, q, j);
    }
  }

  /** The product of that row is lost with it: 0 where the weights give minus the width. */
  lemma LastProductIsLost(sw: SparseWeight, w: Weight, q: seq<int>)
    requires Represents(sw, w) && IsDense(w) && q == Ones(sw.inDim, 1)
    ensures sw.inDim % QK == 0 && sw.outDim == DENSE_ROWS
    ensures SliceDot(sw, w, q, sw.outDim - 1) == 0
    ensures RowDot(w.packed, q, sw.outDim - 1) == 0 - DENSE_WIDTH
  {
    hide AllEntries, Zip, RowDot, SliceDot, StartsAt, DotInt, Unpack;
    LastRowIsLost(sw, w);
    SliceDotIs(sw, w, q, sw.outDim - 1);
    RowOfZeros(w.packed, q, sw.outDim - 1);
  }

  lemma RowOfZeros(packed: seq<u8>, q: seq<int>, j: nat)
    requires q == Ones(DENSE_WIDTH, 1) && forall i :: 0 <= i < |packed| ==> packed[i] == 0
    ensures |q| % QK == 0 && RowDot(packed, q, j) == 0 - DENSE_WIDTH
  {
    hide Unpack, DotInt, Wrap32;
    DenseProduct(RowAt(packed, |q| / 4, j), q);
  }

  lemma DenseProduct(row: seq<u8>, q: seq<int>)
    requires |row| % BLOCK_BYTES == 0 && |q| == 4 * |row| && q == Ones(|q|, 1) && |q| < 0x8000_0000
    requires forall i :: 0 <= i < |row| ==> row[i] == 0
    ensures Wrap32(DotInt(Unpack(row), q)) == -|q|
  {
    hide Unpack, Sum;
    forall i: nat | i < |q| ensures Unpack(row)[i] == -1 {
      UnpackAt(row, i);
      assert Code(0, 0) == 0 && Code(0, 1) == 0 && Code(0, 2) == 0 && Code(0, 3) == 0;
    }
    assert Products(Unpack(row), q) == Ones(|q|, -1);
    SumOfOnes(|q|, -1);
  }

  // ---------------------------------------------------------------------------
  // What the entries are
  // ---------------------------------------------------------------------------

  /** A row has an entry for each of its non-zero weights. */
  lemma EntriesCountNonZeros(row: seq<u8>)
    requires |row| % BLOCK_BYTES == 0
    ensures |RowEntries(row)| == NonZeros(Unpack(row))
  {
    hide Unpack, DotInt, Entries, Sum, NonZeros;
    var w := Unpack(row);
    UnpackIsTernary(row);
    SparseDotIsDense(row, w);
    SquaresCount(w);
    EntriesHold(row, |row| / 32, 0);
    var n := |RowEntries(row)|;
    SquaresAreOnes(RowEntries(row), w);
    SumOfOnes(n, 1);
  }

  lemma SquaresAreOnes(entries: seq<Entry>, w: seq<int>)
    requires Holds(entries, w)
    ensures EntryProducts(entries, w) == Ones(|entries|, 1)
  {
    forall i | 0 <= i < |entries| ensures entries[i].sign * w[entries[i].column] == 1 {
      if entries[i].sign == 1 { assert 1 * w[entries[i].column] == 1; }
    }
  }

  lemma {:induction false} SquaresCount(w: seq<int>)
    requires IsTernary(w)
    ensures DotInt(w, w) == NonZeros(w)
  {
    if w != [] {
      SquaresCount(w[..|w| - 1]);
      assert Products(w, w)[..|w| - 1] == Products(w[..|w| - 1], w[..|w| - 1]);
      var last := w[|w| - 1];
      assert last == -1 || last == 0 || last == 1;
    }
  }

  /** Each entry holds the non-zero weight of its column. */
  predicate Holds(entries: seq<Entry>, w: seq<int>) {
    forall i :: 0 <= i < |entries| ==>
      entries[i].column < |w|
      && (entries[i].sign == 1 || entries[i].sign == -1) && w[entries[i].column] == entries[i].sign
  }

  lemma ByteHolds(row: seq<u8>, bk: nat, gp: nat)
    requires |row| % BLOCK_BYTES == 0 && 32 * bk + 32 <= |row| && gp < 32
    ensures Holds(ByteEntries(row[32 * bk + gp], Column(bk, gp, 0)), Unpack(row))
  {
    hide *;
    var b, w := row[32 * bk + gp], Unpack(row);
    var c0, c1, c2, c3 := Column(bk, gp, 0), Column(bk, gp, 1), Column(bk, gp, 2), Column(bk, gp, 3);
    KeptHolds(row, bk, gp, 0);
    KeptHolds(row, bk, gp, 1);
    KeptHolds(row, bk, gp, 2);
    KeptHolds(row, bk, gp, 3);
    HoldsConcat(Kept(b, 0, c0), Kept(b, 1, c1), w);
    HoldsConcat(Kept(b, 0, c0) + Kept(b, 1, c1), Kept(b, 2, c2), w);
    HoldsConcat(Kept(b, 0, c0) + Kept(b, 1, c1) + Kept(b, 2, c2), Kept(b, 3, c3), w);
    FourKept(b, bk, gp);
  }

  lemma FourKept(b: u8, bk: nat, gp: nat)
    ensures ByteEntries(b, Column(bk, gp, 0))
         == Kept(b, 0, Column(bk, gp, 0)) + Kept(b, 1, Column(bk, gp, 1))
          + Kept(b, 2, Column(bk, gp, 2)) + Kept(b, 3, Column(bk, gp, 3))
  {
    hide Kept;
  }

  lemma KeptHolds(row: seq<u8>, bk: nat, gp: nat, code: nat)
    requires |row| % BLOCK_BYTES == 0 && 32 * bk + 32 <= |row| && gp < 32 && code < 4
    ensures Holds(Kept(row[32 * bk + gp], code, Column(bk, gp, code)), Unpack(row))
  {
    hide Unpack, Code;
    CodeAt(row, bk, gp, code);
  }

  lemma HoldsConcat(a: seq<Entry>, b: seq<Entry>, w: seq<int>)
    requires Holds(a, w) && Holds(b, w)
    ensures Holds(a + b, w)
  {
  }

  lemma {:induction false} EntriesHold(row: seq<u8>, bk: nat, gp: nat)
    requires |row| % BLOCK_BYTES == 0 && gp <= 32 && 32 * bk + gp <= |row|
    ensures Holds(Entries(row, 32 * bk + gp), Unpack(row))
    decreases bk, gp
  {
    hide Unpack, ByteEntries, Entries;
    if gp > 0 {
      EntriesHold(row, bk, gp - 1);
      ByteHolds(row, bk, gp - 1);
      EntriesStep(row, bk, gp - 1);
      HoldsConcat(Entries(row, 32 * bk + (gp - 1)), ByteEntries(row[32 * bk + (gp - 1)], Column(bk, gp - 1, 0)), Unpack(row));
    } else if bk > 0 {
      EntriesHold(row, bk - 1, 32);
    } else {
      NothingRead(row);
    }
  }

  lemma CodeAt(row: seq<u8>, bk: nat, gp: nat, code: nat)
    requires |row| % BLOCK_BYTES == 0 && 32 * bk + 32 <= |row| && gp < 32 && code < 4
    ensures Unpack(row)[Column(bk, gp, code)] == Ternary(Code(row[32 * bk + gp], code))
  {
    hide Unpack, Code, Ternary;
    PlaceOfColumn(bk, gp, code);
    UnpackAt(row, Column(bk, gp, code));
  }

  /** The sparse kernel fed the quantised input agrees with the vector kernels output by output. */
  lemma SparseAgrees(sw: SparseWeight, w: Weight, x: seq<real>, out: seq<real>, fast: seq<real>)
    requires Represents(sw, w) && |out| == |fast| && IsActProduct(w, x, fast)
    requires forall j: nat :: j < |out| ==>
      out[j] == Scaled(Scaled(sw.scale, ActScale(x)), RowDot(w.packed, Acts(x), j) as real)
    ensures out == fast
  {
    hide RowDot, Scaled, Acts, ActScale;
  }
}
