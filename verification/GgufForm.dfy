/**
  The file format itself: every kind of metadata value reads back as written, a whole file
  spelled out byte by byte, the sizes of the tensor types, and what any file read satisfies.
  */
module GgufForm {
  import opened Wrappers
  import opened Utf8
  import opened GgufBytes
  import opened Gguf
  import opened GgufPrint

  // ---------------------------------------------------------------------------
  // Integers
  // ---------------------------------------------------------------------------

  function Pow256(n: nat): nat {
    if n == 0 then 1 else 256 * Pow256(n - 1)
  }

  lemma PowPositive(n: nat)
    ensures Pow256(n) > 0
  {
  }

  /** Byte `i` of a written integer is its `i`-th digit: least significant first. */
  lemma {:induction false} DigitOf(v: nat, n: nat, i: nat)
    requires i < n
    ensures Pow256(i) > 0 && ToLE(v, n)[i] == v / Pow256(i) % 256
  {
    PowPositive(i);
    if i > 0 {
      DigitOf(v / 256, n - 1, i - 1);
      PowPositive(i - 1);
      DivideTwice(v, Pow256(i - 1));
    }
  }

  lemma DivideTwice(v: nat, b: nat)
    requires b > 0
    ensures v / 256 / b == v / (256 * b)
  {
    var q, r := v / 256, v % 256;
    var k, s := q / b, q % b;
    assert v == 256 * (k * b + s) + r;
    assert 256 * (k * b) == (256 * b) * k;
    assert 256 * s + r < 256 * b;
    Unique(v, 256 * b, k, 256 * s + r);
  }

  lemma Unique(v: nat, d: nat, q: nat, r: nat)
    requires d > 0 && v == d * q + r && r < d
    ensures v / d == q
  {
    var q', r' := v / d, v % d;
    assert d * (q - q') == r' - r;
    AtLeastOnce(q - q', d);
  }

  // ---------------------------------------------------------------------------
  // Values of every kind
  // ---------------------------------------------------------------------------

  /** A value as it is written; an array also says the type of its elements. */
  datatype Typed =
    | ANumber(tag: nat, bits: nat)
    | ABool(on: bool)
    | AString(text: seq<byte>)
    | AnArray(elem: nat, elems: seq<Typed>)

  /** The value is of that type, and can stand at that nesting depth. */
  predicate HasType(t: Typed, tag: nat, depth: nat) {
    match t
    case ANumber(n, bits) => tag == n && NumberBytes(tag) > 0 && bits < Limit(NumberBytes(tag))
    case ABool(_) => tag == 7
    case AString(text) => tag == 8 && IsText(text)
    case AnArray(elem, elems) =>
      && tag == 9 && depth < 16 && |elems| <= 1_000_000 && elem < 0x1_0000_0000 && ElementBytes(elem).Some?
      && forall i :: 0 <= i < |elems| ==> HasType(elems[i], elem, depth + 1)
  }

  function Write(t: Typed): seq<byte> {
    match t
    case ANumber(tag, bits) => ToLE(bits, NumberBytes(tag))
    case ABool(on) => [if on then 1 else 0]
    case AString(text) => ToLE(|text|, 8) + text
    case AnArray(elem, elems) => ToLE(elem, 4) + (ToLE(|elems|, 8) + WriteAll(elems))
  }

  function WriteAll(ts: seq<Typed>): seq<byte> {
    if ts == [] then [] else WriteAll(ts[..|ts| - 1]) + Write(ts[|ts| - 1])
  }

  function Meaning(t: Typed): Value {
    match t
    case ANumber(tag, bits) => Number(tag, bits)
    case ABool(on) => Boolean(on)
    case AString(text) => Str(text)
    case AnArray(_, elems) => Arr(Meanings(elems))
  }

  function Meanings(ts: seq<Typed>): (vs: seq<Value>)
    ensures |vs| == |ts|
  {
    if ts == [] then [] else Meanings(ts[..|ts| - 1]) + [Meaning(ts[|ts| - 1])]
  }

  lemma WrittenSize(t: Typed, tag: nat, depth: nat)
    requires HasType(t, tag, depth)
    ensures ElementBytes(tag).Some? && |Write(t)| >= ElementBytes(tag).value
  {
  }

  lemma {:induction false} AllSize(ts: seq<Typed>, tag: nat, depth: nat)
    requires ElementBytes(tag).Some? && forall i :: 0 <= i < |ts| ==> HasType(ts[i], tag, depth)
    ensures |WriteAll(ts)| >= |ts| * ElementBytes(tag).value
  {
    hide HasType, Write, ElementBytes;
    if ts != [] {
      var n := |ts| - 1;
      AllSize(ts[..n], tag, depth);
      WrittenSize(ts[n], tag, depth);
      assert |ts| * ElementBytes(tag).value == n * ElementBytes(tag).value + ElementBytes(tag).value;
    }
  }

  /** Numbers of every width, booleans, strings and arrays nested up to sixteen deep read back as written. */
  lemma {:induction false} TypedReadsBack(data: seq<byte>, pos: nat, t: Typed, tag: nat, depth: nat)
    requires depth <= 16 && HasType(t, tag, depth) && StandsAt(data, pos, Write(t))
    ensures ReadTyped(data, pos, tag, depth) == Some(Read(Meaning(t), pos + |Write(t)|))
    decreases t, 0
  {
    hide FromLE, ToLE, ReadElems, ReadString, ValidUpTo;
    match t {
      case ANumber(_, bits) => IntWritten(data, pos, bits, NumberBytes(tag));
      case ABool(on) => OneByte(data, pos, if on then 1 else 0);
      case AString(text) => StringWritten(data, pos, text);
      case AnArray(elem, elems) => ArrayReadsBack(data, pos, elem, elems, depth);
    }
  }

  lemma OneByte(data: seq<byte>, pos: nat, b: byte)
    requires StandsAt(data, pos, [b])
    ensures ReadInt(data, pos, 1) == Some(Read(b as nat, pos + 1))
  {
    assert data[pos..pos + 1] == [b] && [b][1..] == [];
    assert FromLE([]) == 0;
    assert FromLE([b]) == b as nat + 256 * FromLE([b][1..]);
  }

  lemma {:induction false} ArrayReadsBack(data: seq<byte>, pos: nat, elem: nat, elems: seq<Typed>, depth: nat)
    requires depth <= 16 && HasType(AnArray(elem, elems), 9, depth) && StandsAt(data, pos, Write(AnArray(elem, elems)))
    ensures ReadTyped(data, pos, 9, depth) == Some(Read(Arr(Meanings(elems)), pos + |Write(AnArray(elem, elems))|))
    decreases elems, 2
  {
    hide FromLE, ToLE, ReadElems, ReadString, Write, WriteAll, Meanings, ElementBytes;
    Limits();
    ArrayBytes(elem, elems);
    StandsPart(data, pos, ToLE(elem, 4), ToLE(|elems|, 8) + WriteAll(elems));
    IntWritten(data, pos, elem, 4);
    StandsPart(data, pos + 4, ToLE(|elems|, 8), WriteAll(elems));
    IntWritten(data, pos + 4, |elems|, 8);
    AllSize(elems, elem, depth + 1);
    AllReadBack(data, pos + 12, elems, elem, depth + 1);
  }

  lemma ArrayBytes(elem: nat, elems: seq<Typed>)
    ensures Write(AnArray(elem, elems)) == ToLE(elem, 4) + (ToLE(|elems|, 8) + WriteAll(elems))
    ensures |ToLE(elem, 4)| == 4 && |ToLE(|elems|, 8)| == 8
  {
  }

  lemma {:induction false} AllReadBack(data: seq<byte>, pos: nat, ts: seq<Typed>, tag: nat, depth: nat)
    requires depth <= 16 && ElementBytes(tag).Some? && pos <= |data|
    requires (forall i :: 0 <= i < |ts| ==> HasType(ts[i], tag, depth)) && StandsAt(data, pos, WriteAll(ts))
    ensures ReadElems(data, pos, tag, |ts|, depth) == Some(Read(Meanings(ts), pos + |WriteAll(ts)|))
    decreases ts, 1
  {
    hide HasType, Write, ElementBytes, ReadTyped, Meaning;
    if ts != [] {
      var n := |ts| - 1;
      StandsPart(data, pos, WriteAll(ts[..n]), Write(ts[n]));
      AllReadBack(data, pos, ts[..n], tag, depth);
      TypedReadsBack(data, pos + |WriteAll(ts[..n])|, ts[n], tag, depth);
    }
  }

  /** The types by number and width. */
  lemma NumberWidths()
    ensures NumberBytes(0) == NumberBytes(1) == 1 && NumberBytes(2) == NumberBytes(3) == 2
    ensures NumberBytes(4) == NumberBytes(5) == NumberBytes(6) == 4 && NumberBytes(10) == NumberBytes(11) == NumberBytes(12) == 8
    ensures NumberBytes(7) == NumberBytes(8) == NumberBytes(9) == 0 && forall tag: nat :: tag > 12 ==> NumberBytes(tag) == 0
  {
  }

  // ---------------------------------------------------------------------------
  // Tensor sizes
  // ---------------------------------------------------------------------------

  datatype Size = Size(raw: nat, values: nat, bytes: nat)

  /** Values and bytes of a block, type by type. */
  const SIZES: seq<Size> := [
    Size(0, 1, 4), Size(1, 1, 2), Size(30, 1, 2), Size(28, 1, 8), Size(24, 1, 1), Size(25, 1, 2), Size(26, 1, 4),
    Size(27, 1, 8), Size(37, 1, 1), Size(2, 32, 18), Size(3, 32, 20), Size(6, 32, 22), Size(7, 32, 24), Size(8, 32, 34),
    Size(9, 32, 40), Size(10, 256, 84), Size(11, 256, 110), Size(12, 256, 144), Size(13, 256, 176), Size(14, 256, 210),
    Size(15, 256, 292), Size(36, 128, 32)]

  lemma SizesHaveValues(k: nat)
    requires k < |SIZES|
    ensures SIZES[k].values > 0 && SIZES[k].bytes > 0
  {
  }

  /** A vector of whole blocks takes its blocks' bytes, in every type; a vector that ends inside a block is refused. */
  lemma VectorSize(k: nat, width: nat)
    requires k < |SIZES| && width > 0 && width <= U64_MAX && width * SIZES[k].bytes <= U64_MAX
    ensures SIZES[k].values > 0
    ensures TensorBytes([width], SIZES[k].raw)
         == if width % SIZES[k].values == 0 then Some(width / SIZES[k].values * SIZES[k].bytes) else None
  {
    hide Layout;
    SizesHaveValues(k);
    var s := SIZES[k];
    OneElement(width);
    BlocksFit(width, s.values, s.bytes);
    if s.raw == 2 || s.raw == 8 || s.raw == 12 || s.raw == 14 {
      assert [width][1..] == [];
    } else {
      LayoutOf(k);
    }
  }

  lemma OneElement(width: nat)
    requires width <= U64_MAX
    ensures Elements([width]) == Some(width) && Elements([]) == Some(1)
  {
    assert [width][..0] == [];
  }

  lemma BlocksFit(width: nat, values: nat, bytes: nat)
    requires values > 0 && width * bytes <= U64_MAX
    ensures width / values * bytes <= U64_MAX
  {
    var q := width / values;
    Quotient(width, values);
    Scaled(q, width, bytes);
  }

  lemma AtMost(values: nat, q: nat)
    requires values > 0
    ensures q <= values * q
  {
    assert values * q == q + (values - 1) * q;
  }

  lemma Scaled(q: nat, width: nat, bytes: nat)
    requires q <= width
    ensures 0 <= q * bytes <= width * bytes
  {
    assert width * bytes == q * bytes + (width - q) * bytes;
  }

  lemma LayoutOf(k: nat)
    requires k < |SIZES| && SIZES[k].raw != 2 && SIZES[k].raw != 8 && SIZES[k].raw != 12 && SIZES[k].raw != 14
    ensures Layout(SIZES[k].raw) == Some((SIZES[k].values, SIZES[k].bytes))
  {
  }

  /** The types whose rows are made of whole blocks each. */
  predicate RowsOfBlocks(raw: nat) {
    raw == 2 || raw == 8 || raw == 12 || raw == 14
  }

  /**
    A matrix: the types made of rows of blocks ask for rows of whole blocks, the others only
    that all values together fill blocks.
    */
  lemma MatrixSize(k: nat, width: nat, rows: nat)
    requires k < |SIZES| && width > 0 && rows > 0 && width * rows <= U64_MAX && width * rows * SIZES[k].bytes <= U64_MAX
    ensures SIZES[k].values > 0
    ensures TensorBytes([width, rows], SIZES[k].raw)
         == if RowsOfBlocks(SIZES[k].raw)
            then (if width % SIZES[k].values == 0 then Some(width / SIZES[k].values * SIZES[k].bytes * rows) else None)
            else if width * rows % SIZES[k].values == 0 then Some(width * rows / SIZES[k].values * SIZES[k].bytes) else None
  {
    hide Layout, Elements;
    SizesHaveValues(k);
    var s := SIZES[k];
    TwoElements(width, rows);
    BlocksFit(width * rows, s.values, s.bytes);
    if RowsOfBlocks(s.raw) {
      assert [width, rows][1..] == [rows];
      RowsFit(width, rows, s.values, s.bytes);
    } else {
      LayoutOf(k);
      assert width * rows > 0;
    }
  }

  lemma TwoElements(width: nat, rows: nat)
    requires width > 0 && rows > 0 && width * rows <= U64_MAX
    ensures Elements([width, rows]) == Some(width * rows) && Elements([rows]) == Some(rows)
  {
    AtMost(rows, width);
    AtMost(width, rows);
    OneElement(width);
    OneElement(rows);
    assert [width, rows][..1] == [width];
  }

  lemma RowsFit(width: nat, rows: nat, values: nat, bytes: nat)
    requires values > 0 && rows > 0 && width * rows * bytes <= U64_MAX
    ensures width / values * bytes <= U64_MAX && width / values * bytes * rows <= U64_MAX
  {
    assert width * rows * bytes == width * bytes * rows;
    AtMost(rows, width * bytes);
    BlocksFit(width, values, bytes);
    var b := width / values * bytes;
    Quotient(width, values);
    Scaled(width / values, width, bytes);
    Scaled(b, width * bytes, rows);
  }

  lemma Quotient(width: nat, values: nat)
    requires values > 0
    ensures width / values <= width
  {
    AtMost(values, width / values);
    assert width == values * (width / values) + width % values;
  }

  /** No other type has a size. */
  lemma NoOtherSize(raw: nat, width: nat)
    requires forall k :: 0 <= k < |SIZES| ==> SIZES[k].raw != raw
    requires 0 < width <= U64_MAX
    ensures TensorBytes([width], raw) == None
  {
    OneElement(width);
    assert SIZES[0].raw == 0 && SIZES[1].raw == 1 && SIZES[2].raw == 30 && SIZES[3].raw == 28 && SIZES[4].raw == 24;
    assert SIZES[5].raw == 25 && SIZES[6].raw == 26 && SIZES[7].raw == 27 && SIZES[8].raw == 37 && SIZES[9].raw == 2;
    assert SIZES[10].raw == 3 && SIZES[11].raw == 6 && SIZES[12].raw == 7 && SIZES[13].raw == 8 && SIZES[14].raw == 9;
    assert SIZES[15].raw == 10 && SIZES[16].raw == 11 && SIZES[17].raw == 12 && SIZES[18].raw == 13 && SIZES[19].raw == 14;
    assert SIZES[20].raw == 15 && SIZES[21].raw == 36;
  }

  /** The dimensions multiply, however they are arranged. */
  lemma {:induction false} ElementsConcat(a: seq<nat>, b: seq<nat>)
    requires Elements(a + b).Some? && Elements(a).Some? && Elements(b).Some?
    ensures Elements(a + b).value == Elements(a).value * Elements(b).value
    decreases |b|
  {
    if b == [] {
      assert a + b == a;
    } else {
      var n := |b| - 1;
      assert (a + b)[..|a + b| - 1] == a + b[..n];
      ElementsConcat(a, b[..n]);
      var x, y, z := Elements(a).value, Elements(b[..n]).value, b[n];
      assert (x * y) * z == x * (y * z);
    }
  }

  // ---------------------------------------------------------------------------
  // What has been read
  // ---------------------------------------------------------------------------

  /** Every file the reader takes has these, whoever wrote it. */
  lemma ReadFileIsSound(data: seq<byte>, f: GgufFile)
    requires ParseFile(data) == Some(f)
    ensures |data| >= 24 && data[..4] == [0x47, 0x47, 0x55, 0x46] && (f.header.version == 2 || f.header.version == 3)
    ensures |f.tensors| <= 1_000_000
    ensures f.header.alignment > 0 && f.header.dataStart % f.header.alignment == 0
    ensures f.header.dataStart - EndOf(f.header.entries, f.header.metaEnd) < f.header.alignment
  {
    hide ReadKvs, ReadEntries, MapOf, AlignmentOf, IsPowerOfTwo, EntryFits, Views;
    var header := ParseHeader(data).value;
    MagicBytes(data[0..4]);
    assert data[0..4] == data[..4];
  }

  lemma MagicBytes(s: seq<byte>)
    requires |s| == 4 && FromLE(s) == MAGIC
    ensures s == [0x47, 0x47, 0x55, 0x46]
  {
    var a, b, c, d := s[0] as int, s[1] as int, s[2] as int, s[3] as int;
    assert s == [s[0], s[1], s[2], s[3]];
    var s1, s2, s3 := s[1..], s[1..][1..], s[1..][1..][1..];
    assert s3[1..] == [] && FromLE(s3[1..]) == 0;
    assert FromLE(s3) == d;
    assert FromLE(s2) == c + 256 * d;
    assert FromLE(s1) == b + 256 * (c + 256 * d);
    assert FromLE(s) == a + 256 * (b + 256 * (c + 256 * d));
  }

  // ---------------------------------------------------------------------------
  // A file byte by byte
  // ---------------------------------------------------------------------------

  lemma Small8(v: nat)
    requires v < 256
    ensures ToLE(v, 8) == [v, 0, 0, 0, 0, 0, 0, 0] && ToLE(v, 4) == [v, 0, 0, 0]
  {
    assert ToLE(0, 4) == [0, 0, 0, 0] by { assert ToLE(0, 3) == [0, 0, 0] by { assert ToLE(0, 2) == [0, 0]; } }
    assert ToLE(0, 7) == [0, 0, 0, 0, 0, 0, 0] by {
      assert ToLE(0, 6) == [0, 0, 0, 0, 0, 0] by { assert ToLE(0, 5) == [0, 0, 0, 0, 0]; }
    }
    assert ToLE(0, 3) == [0, 0, 0];
  }

  /** Two metadata pairs and two tensors, the first of one float, the second of two half floats. */
  const KVS: seq<KV> := [KV([0x6B], Number(4, 7)), KV([0x6E], Str([0x61, 0x62]))]
  const TENSORS: seq<Tensor> := [Tensor([0x74], [1], 0, [1, 2, 3, 4]), Tensor([0x75], [2, 1], 1, [5, 6, 7, 8])]

  const FIXED: seq<byte> := [0x47, 0x47, 0x55, 0x46, 3, 0, 0, 0, 2, 0, 0, 0, 0, 0, 0, 0, 2, 0, 0, 0, 0, 0, 0, 0]
  const PAIRS: seq<byte> :=
    [1, 0, 0, 0, 0, 0, 0, 0, 0x6B, 4, 0, 0, 0, 7, 0, 0, 0]
    + [1, 0, 0, 0, 0, 0, 0, 0, 0x6E, 8, 0, 0, 0, 2, 0, 0, 0, 0, 0, 0, 0, 0x61, 0x62]
  const FIRST: seq<byte> :=
    [1, 0, 0, 0, 0, 0, 0, 0, 0x74] + ([1, 0, 0, 0] + ([1, 0, 0, 0, 0, 0, 0, 0] + ([0, 0, 0, 0] + [0, 0, 0, 0, 0, 0, 0, 0])))
  const SECOND: seq<byte> :=
    [1, 0, 0, 0, 0, 0, 0, 0, 0x75]
    + ([2, 0, 0, 0] + ([2, 0, 0, 0, 0, 0, 0, 0, 1, 0, 0, 0, 0, 0, 0, 0] + ([1, 0, 0, 0] + [32, 0, 0, 0, 0, 0, 0, 0])))

  /** The header of their file. */
  const HEADER: seq<byte> := FIXED + (PAIRS + (FIRST + SECOND))

  lemma PairBytes()
    ensures WriteString([0x6B]) + WriteValue(Number(4, 7)) == [1, 0, 0, 0, 0, 0, 0, 0, 0x6B, 4, 0, 0, 0, 7, 0, 0, 0]
    ensures IsText([0x61, 0x62])
    ensures WriteString([0x6E]) + WriteValue(Str([0x61, 0x62]))
         == [1, 0, 0, 0, 0, 0, 0, 0, 0x6E, 8, 0, 0, 0, 2, 0, 0, 0, 0, 0, 0, 0, 0x61, 0x62]
  {
    hide ToLE;
    Small8(1);
    Small8(2);
    Small8(4);
    Small8(7);
    Small8(8);
  }

  lemma WrittenKvs()
    ensures WritableKvs(KVS) && WriteKvs(KVS) == PAIRS
  {
    hide ToLE, WriteString, WriteValue;
    LetterIsText(0x6B);
    LetterIsText(0x6E);
    PairBytes();
    assert KVS[..1] == [KVS[0]] && KVS[..1][..0] == [];
    assert WriteKvs([]) == [];
    assert WriteKvs(KVS[..1]) == WriteString([0x6B]) + WriteValue(Number(4, 7));
  }

  lemma NameBytes(letter: byte)
    ensures WriteString([letter]) == [1, 0, 0, 0, 0, 0, 0, 0, letter]
  {
    hide ToLE;
    Small8(1);
  }

  lemma DimBytes()
    ensures WriteDims([1]) == [1, 0, 0, 0, 0, 0, 0, 0]
    ensures WriteDims([2, 1]) == [2, 0, 0, 0, 0, 0, 0, 0, 1, 0, 0, 0, 0, 0, 0, 0]
  {
    hide ToLE;
    Small8(1);
    Small8(2);
    assert [1][..0] == [] && [2, 1][..1] == [2] && [2][..0] == [] && WriteDims([]) == [];
    assert WriteDims([2]) == ToLE(2, 8);
  }

  lemma EntryBytes()
    ensures WriteEntry(TENSORS[0], 0) == FIRST && WriteEntry(TENSORS[1], 32) == SECOND
  {
    hide ToLE, WriteString, WriteDims;
    Small8(0);
    Small8(1);
    Small8(2);
    Small8(32);
    NameBytes(0x74);
    NameBytes(0x75);
    DimBytes();
  }

  lemma Offsets()
    ensures Running(TENSORS, 0) == 0 && OffsetAt(TENSORS, 0) == 0 && Running(TENSORS, 1) == 4 && OffsetAt(TENSORS, 1) == 32
  {
  }

  lemma WrittenEntries()
    ensures WriteEntries(TENSORS, 2) == FIRST + SECOND
  {
    hide ToLE, WriteEntry;
    Offsets();
    EntryBytes();
    assert WriteEntries(TENSORS, 0) == [];
    assert WriteEntries(TENSORS, 1) == FIRST;
  }

  lemma FixedBytes()
    ensures WriteFixed(2, 2) == FIXED
  {
    hide ToLE;
    Small8(2);
    Small8(3);
    MagicWritten();
  }

  lemma MagicWritten()
    ensures ToLE(MAGIC, 4) == [0x47, 0x47, 0x55, 0x46]
  {
    assert ToLE(0x46, 1) == [0x46];
    assert ToLE(0x4655, 2) == [0x55, 0x46];
    assert ToLE(0x4655_47, 3) == [0x47, 0x55, 0x46];
  }

  /**
    The printed file, spelled out: magic, version, counts; keys and values with their types;
    names, dimensions, types and offsets; zeros up to the next multiple of 32; the data, the
    second tensor's at its own multiple of 32.
    */
  lemma FileByteByByte()
    ensures WritableKvs(KVS) && |HEADER| == 138
    ensures Print(KVS, TENSORS) == HEADER + Zeros(22) + [1, 2, 3, 4] + Zeros(28) + [5, 6, 7, 8]
  {
    hide ToLE, WriteKvs, WriteEntries, WriteEntry, WriteFixed;
    WrittenKvs();
    WrittenEntries();
    FixedBytes();
    Offsets();
    assert WriteHeader(KVS, TENSORS) == HEADER;
    assert DataStart(HEADER) == 160;
    assert FileAfter(HEADER, TENSORS, 0) == HEADER + Zeros(22);
    assert FileAfter(HEADER, TENSORS, 1) == HEADER + Zeros(22) + [1, 2, 3, 4];
  }
}
