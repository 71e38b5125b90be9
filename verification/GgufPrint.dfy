/** Writing a file: header, metadata, directory, padding and data; and what the reader makes of it. */
module GgufPrint {
  import opened Wrappers
  import opened Utf8
  import opened GgufBytes
  import opened Gguf

  const ALIGN: nat := 32
  const WRITTEN_VERSION: nat := 3

  /** A tensor to be written; the data of a ternary one ends with its scale block. */
  datatype Tensor = Tensor(name: seq<byte>, shape: seq<nat>, raw: nat, data: seq<byte>)

  // ---------------------------------------------------------------------------
  // Layout
  // ---------------------------------------------------------------------------

  function Align(offset: nat): (r: nat)
    ensures r % ALIGN == 0 && offset <= r < offset + ALIGN
  {
    if offset % ALIGN == 0 then offset else offset + (ALIGN - offset % ALIGN)
  }

  /** Where the data section has got to after `n` tensors. */
  function Running(ts: seq<Tensor>, n: nat): nat
    requires n <= |ts|
    decreases n, 0
  {
    if n == 0 then 0 else OffsetAt(ts, n - 1) + |ts[n - 1].data|
  }

  function OffsetAt(ts: seq<Tensor>, n: nat): nat
    requires n < |ts|
    decreases n, 1
  {
    Align(Running(ts, n))
  }

  lemma {:induction false} OffsetsGrow(ts: seq<Tensor>, i: nat, j: nat)
    requires i < j <= |ts|
    ensures OffsetAt(ts, i) + |ts[i].data| <= Running(ts, j)
    ensures j < |ts| ==> OffsetAt(ts, i) + |ts[i].data| <= OffsetAt(ts, j)
  {
    if i < j - 1 { OffsetsGrow(ts, i, j - 1); }
  }

  // ---------------------------------------------------------------------------
  // Header
  // ---------------------------------------------------------------------------

  /** The kinds of value the builder writes. */
  predicate Writable(v: Value) {
    match v
    case Str(text) => IsText(text)
    case Number(tag, bits) => (tag == UINT32 || tag == FLOAT32) && bits < 0x1_0000_0000
    case _ => false
  }

  function WriteValue(v: Value): seq<byte>
    requires Writable(v)
  {
    match v
    case Str(text) => ToLE(STRING, 4) + WriteString(text)
    case Number(tag, bits) => ToLE(tag, 4) + ToLE(bits, 4)
  }

  predicate WritableKvs(kvs: seq<KV>) {
    forall i :: 0 <= i < |kvs| ==> IsText(kvs[i].key) && Writable(kvs[i].value)
  }

  function WriteKvs(kvs: seq<KV>): seq<byte>
    requires WritableKvs(kvs)
  {
    if kvs == [] then [] else
    WriteKvs(kvs[..|kvs| - 1]) + (WriteString(kvs[|kvs| - 1].key) + WriteValue(kvs[|kvs| - 1].value))
  }

  function WriteDims(shape: seq<nat>): (r: seq<byte>)
    ensures |r| == 8 * |shape|
  {
    if shape == [] then [] else WriteDims(shape[..|shape| - 1]) + ToLE(shape[|shape| - 1], 8)
  }

  function WriteEntry(t: Tensor, offset: nat): (r: seq<byte>)
    ensures |r| == 8 + |t.name| + 4 + 8 * |t.shape| + 12
  {
    WriteString(t.name) + (ToLE(|t.shape|, 4) + (WriteDims(t.shape) + (ToLE(t.raw, 4) + ToLE(offset, 8))))
  }

  function WriteEntries(ts: seq<Tensor>, n: nat): seq<byte>
    requires n <= |ts|
  {
    if n == 0 then [] else WriteEntries(ts, n - 1) + WriteEntry(ts[n - 1], OffsetAt(ts, n - 1))
  }

  function WriteFixed(tensors: nat, kvs: nat): (r: seq<byte>)
    ensures |r| == 24
  {
    ToLE(MAGIC, 4) + (ToLE(WRITTEN_VERSION, 4) + (ToLE(tensors, 8) + ToLE(kvs, 8)))
  }

  function WriteHeader(kvs: seq<KV>, ts: seq<Tensor>): (r: seq<byte>)
    requires WritableKvs(kvs)
  {
    WriteFixed(|ts|, |kvs|) + (WriteKvs(kvs) + WriteEntries(ts, |ts|))
  }

  // ---------------------------------------------------------------------------
  // Data section
  // ---------------------------------------------------------------------------

  function Zeros(n: nat): (r: seq<byte>)
    ensures |r| == n
  {
    seq(n, _ => 0)
  }

  function PadTo(s: seq<byte>, length: nat): (r: seq<byte>)
    requires |s| <= length
    ensures |r| == length && r[..|s|] == s
  {
    s + Zeros(length - |s|)
  }

  function DataStart(header: seq<byte>): nat {
    Align(|header|)
  }

  /** The file after `n` tensors. */
  function FileAfter(header: seq<byte>, ts: seq<Tensor>, n: nat): (r: seq<byte>)
    requires n <= |ts|
    ensures |r| == DataStart(header) + Running(ts, n)
  {
    if n == 0 then PadTo(header, DataStart(header))
    else PadTo(FileAfter(header, ts, n - 1), DataStart(header) + OffsetAt(ts, n - 1)) + ts[n - 1].data
  }

  /** The written file. */
  function Print(kvs: seq<KV>, ts: seq<Tensor>): seq<byte>
    requires WritableKvs(kvs)
  {
    FileAfter(WriteHeader(kvs, ts), ts, |ts|)
  }

  lemma {:induction false} HeaderKept(header: seq<byte>, ts: seq<Tensor>, n: nat)
    requires n <= |ts|
    ensures |header| <= |FileAfter(header, ts, n)| && FileAfter(header, ts, n)[..|header|] == header
  {
    if n > 0 {
      HeaderKept(header, ts, n - 1);
      var before := FileAfter(header, ts, n - 1);
      var padded := PadTo(before, DataStart(header) + OffsetAt(ts, n - 1));
      assert (padded + ts[n - 1].data)[..|header|] == padded[..|before|][..|header|];
    }
  }

  /** Every tensor's data stands at its offset. */
  lemma {:induction false} DataStands(header: seq<byte>, ts: seq<Tensor>, n: nat, i: nat)
    requires i < n <= |ts|
    ensures StandsAt(FileAfter(header, ts, n), DataStart(header) + OffsetAt(ts, i), ts[i].data)
  {
    hide Align;
    var before := FileAfter(header, ts, n - 1);
    var at := DataStart(header) + OffsetAt(ts, n - 1);
    var padded := PadTo(before, at);
    if i < n - 1 {
      DataStands(header, ts, n - 1, i);
      var from := DataStart(header) + OffsetAt(ts, i);
      var to := from + |ts[i].data|;
      assert (padded + ts[n - 1].data)[from..to] == padded[..|before|][from..to];
    } else {
      assert (padded + ts[n - 1].data)[at..at + |ts[i].data|] == ts[n - 1].data;
    }
  }

  // ---------------------------------------------------------------------------
  // The builder
  // ---------------------------------------------------------------------------

  /** Offsets, header, padding and data, in that order. */
  method BuildFile(kvs: seq<KV>, ts: seq<Tensor>) returns (buf: seq<byte>)
    requires WritableKvs(kvs)
    ensures buf == Print(kvs, ts)
  {
    hide Align, WriteEntry, ToLE, WriteEntries, WriteKvs;
    var offsets: seq<nat> := [];
    var running := 0;
    var i := 0;
    while i < |ts|
      invariant 0 <= i <= |ts| && |offsets| == i && running == Running(ts, i)
      invariant forall k: nat :: k < i ==> offsets[k] == OffsetAt(ts, k)
    {
      var aligned := Align(running);
      offsets := offsets + [aligned];
      running := aligned + |ts[i].data|;
      i := i + 1;
    }
    buf := ToLE(MAGIC, 4) + ToLE(WRITTEN_VERSION, 4) + ToLE(|ts|, 8) + ToLE(|kvs|, 8);
    assert buf == WriteFixed(|ts|, |kvs|);
    buf := WriteMetadata(buf, kvs);
    buf := WriteDirectory(buf, ts, offsets);
    assert buf == WriteHeader(kvs, ts);
    var dataStart := Align(|buf|);
    ghost var header := buf;
    buf := PadTo(buf, dataStart);
    i := 0;
    while i < |ts|
      invariant 0 <= i <= |ts| && buf == FileAfter(header, ts, i)
    {
      var at := dataStart + offsets[i];
      if |buf| < at { buf := PadTo(buf, at); }
      assert buf == PadTo(FileAfter(header, ts, i), at);
      buf := buf + ts[i].data;
      i := i + 1;
    }
  }

  method WriteMetadata(start: seq<byte>, kvs: seq<KV>) returns (buf: seq<byte>)
    requires WritableKvs(kvs)
    ensures buf == start + WriteKvs(kvs)
  {
    hide WriteString, WriteValue;
    buf := start;
    var i := 0;
    while i < |kvs|
      invariant 0 <= i <= |kvs| && buf == start + WriteKvs(kvs[..i])
    {
      KvsGrow(kvs, i);
      buf := buf + WriteString(kvs[i].key) + WriteValue(kvs[i].value);
      assert buf == start + (WriteKvs(kvs[..i]) + (WriteString(kvs[i].key) + WriteValue(kvs[i].value)));
      i := i + 1;
    }
    assert kvs[..i] == kvs;
  }

  lemma KvsGrow(kvs: seq<KV>, i: nat)
    requires WritableKvs(kvs) && i < |kvs|
    ensures WriteKvs(kvs[..i + 1]) == WriteKvs(kvs[..i]) + (WriteString(kvs[i].key) + WriteValue(kvs[i].value))
  {
    assert kvs[..i + 1][..i] == kvs[..i];
  }

  method WriteDirectory(start: seq<byte>, ts: seq<Tensor>, offsets: seq<nat>) returns (buf: seq<byte>)
    requires |offsets| == |ts| && forall k: nat :: k < |ts| ==> offsets[k] == OffsetAt(ts, k)
    ensures buf == start + WriteEntries(ts, |ts|)
  {
    hide WriteEntry, OffsetAt;
    buf := start;
    var i := 0;
    while i < |ts|
      invariant 0 <= i <= |ts| && buf == start + WriteEntries(ts, i)
    {
      buf := buf + WriteEntry(ts[i], offsets[i]);
      assert buf == start + (WriteEntries(ts, i) + WriteEntry(ts[i], offsets[i]));
      i := i + 1;
    }
  }

  // ---------------------------------------------------------------------------
  // Reading it back: metadata and directory
  // ---------------------------------------------------------------------------

  lemma ValueWritten(data: seq<byte>, pos: nat, v: Value)
    requires Writable(v) && StandsAt(data, pos, WriteValue(v))
    ensures ReadValue(data, pos) == Some(Read(v, pos + |WriteValue(v)|))
  {
    hide FromLE, ToLE, ValidUpTo, ReadString;
    Limits();
    match v {
      case Str(text) =>
        StandsPart(data, pos, ToLE(STRING, 4), WriteString(text));
        IntWritten(data, pos, STRING, 4);
        StringWritten(data, pos + 4, text);
      case Number(tag, bits) =>
        StandsPart(data, pos, ToLE(tag, 4), ToLE(bits, 4));
        IntWritten(data, pos, tag, 4);
        IntWritten(data, pos + 4, bits, 4);
    }
  }

  lemma KvWritten(data: seq<byte>, pos: nat, kv: KV)
    requires IsText(kv.key) && Writable(kv.value) && StandsAt(data, pos, WriteString(kv.key) + WriteValue(kv.value))
    ensures ReadKv(data, pos) == Some(Read(kv, pos + |WriteString(kv.key) + WriteValue(kv.value)|))
  {
    hide ReadValue, ReadString, WriteValue, WriteString, IsText, Writable;
    StandsPart(data, pos, WriteString(kv.key), WriteValue(kv.value));
    KeyWritten(data, pos, kv.key);
    ValueWritten(data, pos + |WriteString(kv.key)|, kv.value);
  }

  lemma {:induction false} KvsWritten(data: seq<byte>, pos: nat, kvs: seq<KV>)
    requires WritableKvs(kvs) && StandsAt(data, pos, WriteKvs(kvs))
    ensures ReadKvs(data, pos, |kvs|) == Some(Read(kvs, pos + |WriteKvs(kvs)|))
  {
    hide ReadKv, WriteValue, WriteString, IsText, Writable;
    if kvs != [] {
      var init, last := kvs[..|kvs| - 1], kvs[|kvs| - 1];
      var tail := WriteString(last.key) + WriteValue(last.value);
      StandsPart(data, pos, WriteKvs(init), tail);
      KvsWritten(data, pos, init);
      KvWritten(data, pos + |WriteKvs(init)|, last);
      assert init + [last] == kvs;
    }
  }

  lemma KeyWritten(data: seq<byte>, pos: nat, s: seq<byte>)
    requires IsText(s) && StandsAt(data, pos, WriteString(s))
    ensures ReadString(data, pos) == Some(Read(s, pos + |WriteString(s)|))
  {
    hide ReadString;
    StringWritten(data, pos, s);
  }

  predicate SmallDims(shape: seq<nat>) {
    forall i :: 0 <= i < |shape| ==> shape[i] <= U64_MAX
  }

  lemma {:induction false} DimsWritten(data: seq<byte>, pos: nat, shape: seq<nat>)
    requires SmallDims(shape) && StandsAt(data, pos, WriteDims(shape))
    ensures ReadDims(data, pos, |shape|) == Some(Read(shape, pos + 8 * |shape|))
  {
    hide FromLE, ToLE;
    if shape != [] {
      var init := shape[..|shape| - 1];
      StandsPart(data, pos, WriteDims(init), ToLE(shape[|shape| - 1], 8));
      DimsWritten(data, pos, init);
      Limits();
      IntWritten(data, pos + 8 * |init|, shape[|shape| - 1], 8);
      assert init + [shape[|shape| - 1]] == shape;
    }
  }

  predicate WritableTensor(t: Tensor) {
    && IsText(t.name) && |t.shape| <= MAX_DIMS && SmallDims(t.shape) && t.raw < 0x1_0000_0000
    && TensorBytes(t.shape, t.raw).Some?
    && |t.data| == TensorBytes(t.shape, t.raw).value + (if t.raw == I2S then SCALE_BLOCK else 0)
  }

  predicate WritableTensors(ts: seq<Tensor>) {
    forall i :: 0 <= i < |ts| ==> WritableTensor(ts[i])
  }

  /** The directory entry the reader finds for a tensor written at `pos`. */
  function EntryFor(t: Tensor, offset: nat, pos: nat): Entry {
    Entry(t.name, t.shape, t.raw, offset, pos + 8 + |t.name| + 4 + 8 * |t.shape|)
  }

  lemma EntryWritten(data: seq<byte>, pos: nat, t: Tensor, offset: nat)
    requires WritableTensor(t) && offset <= U64_MAX && StandsAt(data, pos, WriteEntry(t, offset))
    ensures ReadEntry(data, pos) == Some(EntryFor(t, offset, pos))
  {
    hide FromLE, ToLE, ReadString, ReadDims, TensorBytes, IsText;
    var tail1 := ToLE(t.raw, 4) + ToLE(offset, 8);
    var tail2 := WriteDims(t.shape) + tail1;
    var tail3 := ToLE(|t.shape|, 4) + tail2;
    var p1 := pos + 8 + |t.name|;
    var p2 := p1 + 4;
    var p3 := p2 + 8 * |t.shape|;
    Limits();
    StandsPart(data, pos, WriteString(t.name), tail3);
    StringWritten(data, pos, t.name);
    StandsPart(data, p1, ToLE(|t.shape|, 4), tail2);
    IntWritten(data, p1, |t.shape|, 4);
    StandsPart(data, p2, WriteDims(t.shape), tail1);
    DimsWritten(data, p2, t.shape);
    StandsPart(data, p3, ToLE(t.raw, 4), ToLE(offset, 8));
    IntWritten(data, p3, t.raw, 4);
    IntWritten(data, p3 + 4, offset, 8);
  }

  /** The directory for the first `n` tensors. */
  function EntriesFor(ts: seq<Tensor>, n: nat, pos: nat): (r: seq<Entry>)
    requires n <= |ts|
    ensures |r| == n && EndOf(r, pos) == pos + |WriteEntries(ts, n)|
  {
    if n == 0 then [] else
    EntriesFor(ts, n - 1, pos) + [EntryFor(ts[n - 1], OffsetAt(ts, n - 1), EndOf(EntriesFor(ts, n - 1, pos), pos))]
  }

  lemma {:induction false} EntriesWritten(data: seq<byte>, pos: nat, ts: seq<Tensor>, n: nat)
    requires n <= |ts| && WritableTensors(ts) && StandsAt(data, pos, WriteEntries(ts, n))
    requires forall i: nat :: i < n ==> OffsetAt(ts, i) <= U64_MAX
    ensures ReadEntries(data, pos, n) == Some(EntriesFor(ts, n, pos))
  {
    hide WriteEntry, ReadEntry, WritableTensor, OffsetAt, EntryFor;
    if n > 0 {
      var before, entry := WriteEntries(ts, n - 1), WriteEntry(ts[n - 1], OffsetAt(ts, n - 1));
      StandsPart(data, pos, before, entry);
      EntriesWritten(data, pos, ts, n - 1);
      EntryWritten(data, pos + |before|, ts[n - 1], OffsetAt(ts, n - 1));
    }
  }

  lemma {:induction false} EntriesForAt(ts: seq<Tensor>, n: nat, pos: nat, i: nat)
    requires i < n <= |ts|
    ensures var e := EntriesFor(ts, n, pos)[i];
      e.name == ts[i].name && e.shape == ts[i].shape && e.raw == ts[i].raw && e.rel == OffsetAt(ts, i)
  {
    hide OffsetAt, WriteEntries;
    if i < n - 1 { EntriesForAt(ts, n - 1, pos, i); }
  }

  // ---------------------------------------------------------------------------
  // Reading it back: the whole file
  // ---------------------------------------------------------------------------

  /** What the reader's limits and the format ask of metadata and tensors to be written. */
  predicate Printable(kvs: seq<KV>, ts: seq<Tensor>) {
    && WritableKvs(kvs) && WritableTensors(ts)
    && |kvs| <= MAX_COUNT && |ts| <= MAX_COUNT
    && !(exists i :: 0 <= i < |kvs| && kvs[i].key == ALIGNMENT_KEY)
    && |Print(kvs, ts)| <= U64_MAX
  }

  lemma {:induction false} KeysOfMap(kvs: seq<KV>, key: seq<byte>)
    ensures key in MapOf(kvs) <==> exists i :: 0 <= i < |kvs| && kvs[i].key == key
  {
    if kvs != [] {
      KeysOfMap(kvs[..|kvs| - 1], key);
      if key in MapOf(kvs[..|kvs| - 1]) {
        var i :| 0 <= i < |kvs| - 1 && kvs[..|kvs| - 1][i].key == key;
        assert kvs[i].key == key;
      }
      if kvs[|kvs| - 1].key == key {
        var last := |kvs| - 1;
        assert kvs[last].key == key;
      }
    }
  }

  /** With distinct keys the map holds every pair. */
  lemma {:induction false} DistinctKeys(kvs: seq<KV>, i: nat)
    requires i < |kvs| && forall j, k :: 0 <= j < k < |kvs| ==> kvs[j].key != kvs[k].key
    ensures kvs[i].key in MapOf(kvs) && MapOf(kvs)[kvs[i].key] == kvs[i].value
  {
    if i < |kvs| - 1 { DistinctKeys(kvs[..|kvs| - 1], i); }
  }

  lemma FixedWritten(data: seq<byte>, tensors: nat, kvs: nat)
    requires tensors <= MAX_COUNT && kvs <= MAX_COUNT && StandsAt(data, 0, WriteFixed(tensors, kvs))
    ensures ReadInt(data, 0, 4) == Some(Read(MAGIC, 4)) && ReadInt(data, 4, 4) == Some(Read(WRITTEN_VERSION, 8))
    ensures ReadInt(data, 8, 8) == Some(Read(tensors, 16)) && ReadInt(data, 16, 8) == Some(Read(kvs, 24))
  {
    hide FromLE, ToLE;
    Limits();
    var t1 := ToLE(tensors, 8) + ToLE(kvs, 8);
    var t2 := ToLE(WRITTEN_VERSION, 4) + t1;
    StandsPart(data, 0, ToLE(MAGIC, 4), t2);
    IntWritten(data, 0, MAGIC, 4);
    StandsPart(data, 4, ToLE(WRITTEN_VERSION, 4), t1);
    IntWritten(data, 4, WRITTEN_VERSION, 4);
    StandsPart(data, 8, ToLE(tensors, 8), ToLE(kvs, 8));
    IntWritten(data, 8, tensors, 8);
    IntWritten(data, 16, kvs, 8);
  }

  /** The header the reader finds in a printed file. */
  function HeaderFor(kvs: seq<KV>, ts: seq<Tensor>): Header
    requires WritableKvs(kvs)
  {
    var metaEnd := 24 + |WriteKvs(kvs)|;
    Header(WRITTEN_VERSION, MapOf(kvs), DEFAULT_ALIGNMENT, metaEnd, EntriesFor(ts, |ts|, metaEnd), DataStart(WriteHeader(kvs, ts)))
  }

  lemma OffsetsRepresentable(kvs: seq<KV>, ts: seq<Tensor>)
    requires Printable(kvs, ts)
    ensures forall i: nat :: i < |ts| ==>
      DataStart(WriteHeader(kvs, ts)) + OffsetAt(ts, i) + |ts[i].data| <= |Print(kvs, ts)|
  {
    hide WriteHeader, OffsetAt, WritableTensor, WritableKvs;
    forall i: nat | i < |ts|
      ensures DataStart(WriteHeader(kvs, ts)) + OffsetAt(ts, i) + |ts[i].data| <= |Print(kvs, ts)|
    {
      OffsetsGrow(ts, i, |ts|);
    }
  }

  lemma AlignedHeader(length: nat, fileLen: nat)
    requires Align(length) <= fileLen <= U64_MAX
    ensures AlignUp(length, DEFAULT_ALIGNMENT) == Some(Align(length))
  {
  }

  lemma PowerThirtyTwo()
    ensures IsPowerOfTwo(DEFAULT_ALIGNMENT)
  {
    assert IsPowerOfTwo(1) && IsPowerOfTwo(2) && IsPowerOfTwo(4) && IsPowerOfTwo(8) && IsPowerOfTwo(16);
  }

  lemma HeaderWritten(kvs: seq<KV>, ts: seq<Tensor>)
    requires Printable(kvs, ts)
    ensures ParseHeader(Print(kvs, ts)) == Some(HeaderFor(kvs, ts))
  {
    hide ReadKvs, ReadEntries, MapOf, WriteKvs, WriteEntries, EntriesFor, IsPowerOfTwo, AlignUp, Align, WritableTensor,
         OffsetAt, FileAfter, FromLE, ToLE, WriteFixed, ReadInt;
    var data, header := Print(kvs, ts), WriteHeader(kvs, ts);
    HeaderKept(header, ts, |ts|);
    assert StandsAt(data, 0, header);
    var rest := WriteKvs(kvs) + WriteEntries(ts, |ts|);
    StandsPart(data, 0, WriteFixed(|ts|, |kvs|), rest);
    StandsPart(data, 24, WriteKvs(kvs), WriteEntries(ts, |ts|));
    FixedWritten(data, |ts|, |kvs|);
    KvsWritten(data, 24, kvs);
    OffsetsRepresentable(kvs, ts);
    EntriesWritten(data, 24 + |WriteKvs(kvs)|, ts, |ts|);
    KeysOfMap(kvs, ALIGNMENT_KEY);
    PowerThirtyTwo();
    AlignedHeader(|header|, |data|);
  }

  /** No tensor but the last is without data. */
  predicate OnlyLastEmpty(ts: seq<Tensor>) {
    forall i :: 0 <= i < |ts| - 1 ==> ts[i].data != []
  }

  lemma PrintedFits(kvs: seq<KV>, ts: seq<Tensor>, i: nat)
    requires Printable(kvs, ts) && OnlyLastEmpty(ts) && i < |ts|
    ensures var h := HeaderFor(kvs, ts); EntryFits(|Print(kvs, ts)|, h.dataStart, h.entries, i)
  {
    hide TensorBytes, OffsetAt, WriteEntries, Align, Print, EntriesFor, WriteKvs, MapOf;
    var h := HeaderFor(kvs, ts);
    OffsetsRepresentable(kvs, ts);
    EntriesForAt(ts, |ts|, h.metaEnd, i);
    assert WritableTensor(ts[i]);
    forall j: nat | j < |ts| && j != i
      ensures h.entries[j].rel != h.entries[i].rel
      ensures h.entries[j].rel > h.entries[i].rel ==> h.entries[i].rel + Footprint(h.entries[i]) <= h.entries[j].rel
    {
      EntriesForAt(ts, |ts|, h.metaEnd, j);
      assert WritableTensor(ts[j]);
      if i < j { OffsetsGrow(ts, i, j); } else { OffsetsGrow(ts, j, i); }
    }
  }

  /** A view is the written tensor: same name, shape and type, its data and its scale block. */
  predicate IsTensor(v: View, t: Tensor)
    requires WritableTensor(t)
  {
    var len := TensorBytes(t.shape, t.raw).value;
    && v.name == t.name && v.shape == t.shape && v.raw == t.raw && v.byteLen == len
    && v.data == t.data[..len]
    && v.scale == (if t.raw == I2S then Some(t.data[len..]) else None)
  }

  /** Bytes of a view in the file, scale block included. */
  function Span(v: View): nat {
    v.byteLen + (if v.scale.Some? then |v.scale.value| else 0)
  }

  predicate Disjoint(v: View, w: View) {
    v.offset + Span(v) <= w.offset || w.offset + Span(w) <= v.offset
  }

  lemma {:induction false} PrintedView(kvs: seq<KV>, ts: seq<Tensor>, h: Header, i: nat)
    requires Printable(kvs, ts) && i < |ts| && h == HeaderFor(kvs, ts)
    requires EntryFits(|Print(kvs, ts)|, h.dataStart, h.entries, i)
    ensures IsTensor(ViewOf(Print(kvs, ts), h.dataStart, h.entries, i), ts[i])
    ensures ViewOf(Print(kvs, ts), h.dataStart, h.entries, i).offset == h.dataStart + OffsetAt(ts, i)
    ensures Span(ViewOf(Print(kvs, ts), h.dataStart, h.entries, i)) == |ts[i].data|
  {
    hide TensorBytes, OffsetAt, WriteEntries, Align, EntriesFor, WriteKvs, MapOf, FileAfter, WriteHeader;
    EntriesForAt(ts, |ts|, h.metaEnd, i);
    assert WritableTensor(ts[i]);
    DataStands(WriteHeader(kvs, ts), ts, |ts|, i);
    var len := TensorBytes(ts[i].shape, ts[i].raw).value;
    assert ts[i].data == ts[i].data[..len] + ts[i].data[len..];
    StandsPart(Print(kvs, ts), h.dataStart + OffsetAt(ts, i), ts[i].data[..len], ts[i].data[len..]);
  }

  /** The reader's result on a printed file. */
  ghost predicate ReadsBack(file: Option<GgufFile>, kvs: seq<KV>, ts: seq<Tensor>, fileLen: nat)
    requires WritableTensors(ts)
  {
    && file.Some?
    && file.value.header.metadata == MapOf(kvs)
    && |file.value.tensors| == |ts|
    && (forall i :: 0 <= i < |ts| ==> IsTensor(file.value.tensors[i], ts[i]))
    && (forall i :: 0 <= i < |ts| ==> file.value.tensors[i].offset + Span(file.value.tensors[i]) <= fileLen)
    && (forall i, j :: 0 <= i < j < |ts| ==> Disjoint(file.value.tensors[i], file.value.tensors[j]))
  }

  /** A tensor without data leaves its offset to the one after it, and the reader takes neither. */
  lemma SharedOffset(kvs: seq<KV>, ts: seq<Tensor>, i: nat)
    requires Printable(kvs, ts) && i + 1 < |ts| && ts[i].data == []
    ensures OffsetAt(ts, i) == OffsetAt(ts, i + 1)
    ensures ParseFile(Print(kvs, ts)).None?
  {
    hide ParseHeader, Print, WritableTensor, WriteEntries, WriteKvs, MapOf, EntriesFor, TensorBytes;
    HeaderWritten(kvs, ts);
    var h := HeaderFor(kvs, ts);
    EntriesForAt(ts, |ts|, h.metaEnd, i);
    EntriesForAt(ts, |ts|, h.metaEnd, i + 1);
    assert OffsetAt(ts, i) % ALIGN == 0 && Running(ts, i + 1) == OffsetAt(ts, i);
    assert h.entries[i].rel == h.entries[i + 1].rel;
    assert !EntryFits(|Print(kvs, ts)|, h.dataStart, h.entries, i);
    assert !FirstFit(|Print(kvs, ts)|, h, |h.entries|);
  }

  lemma NonEmptyParse(kvs: seq<KV>, ts: seq<Tensor>)
    requires Printable(kvs, ts) && OnlyLastEmpty(ts)
    ensures ParseFile(Print(kvs, ts)).Some?
    ensures ReadsBack(ParseFile(Print(kvs, ts)), kvs, ts, |Print(kvs, ts)|)
  {
    hide ParseHeader, EntryFits, ViewOf, IsTensor, WritableTensor, Print, OffsetAt, Span;
    HeaderWritten(kvs, ts);
    var data, h := Print(kvs, ts), HeaderFor(kvs, ts);
    assert |h.entries| == |ts|;
    forall i: nat | i < |ts| ensures EntryFits(|data|, h.dataStart, h.entries, i) {
      PrintedFits(kvs, ts, i);
    }
    assert FirstFit(|data|, h, |h.entries|);
    var file := ParseFile(data).value;
    forall i: nat | i < |ts|
      ensures IsTensor(file.tensors[i], ts[i])
      ensures file.tensors[i].offset == h.dataStart + OffsetAt(ts, i) && Span(file.tensors[i]) == |ts[i].data|
    {
      ViewsAt(data, h, |h.entries|, i);
      PrintedView(kvs, ts, h, i);
    }
    OffsetsRepresentable(kvs, ts);
    forall i: nat, j: nat | i < j < |ts| ensures Disjoint(file.tensors[i], file.tensors[j]) {
      OffsetsGrow(ts, i, j);
    }
  }

  /**
    Parsing what was printed returns what was written; it succeeds exactly when no tensor
    but the last is without data.
    */
  lemma PrintParse(kvs: seq<KV>, ts: seq<Tensor>)
    requires Printable(kvs, ts)
    ensures ParseFile(Print(kvs, ts)).Some? <==> OnlyLastEmpty(ts)
    ensures OnlyLastEmpty(ts) ==> ReadsBack(ParseFile(Print(kvs, ts)), kvs, ts, |Print(kvs, ts)|)
  {
    hide ParseFile, Print, ReadsBack, WritableTensor;
    if OnlyLastEmpty(ts) {
      NonEmptyParse(kvs, ts);
    } else {
      var i :| 0 <= i < |ts| - 1 && ts[i].data == [];
      SharedOffset(kvs, ts, i);
    }
  }

  /** Two tensors the printer takes, the first of no rows: their file does not parse. */
  lemma EmptyTensorIsLost() returns (ts: seq<Tensor>)
    ensures Printable([], ts) && |ts| == 2 && ts[0].shape == [0] && ts[1].shape == [1]
    ensures ParseFile(Print([], ts)).None?
  {
    var first, second := Tensor([97], [0], F32, []), Tensor([98], [1], F32, [0, 0, 0, 0]);
    ts := [first, second];
    LetterIsText(97);
    LetterIsText(98);
    OneDimension(0);
    OneDimension(1);
    SmallFile(ts);
    SharedOffset([], ts, 0);
  }

  lemma LetterIsText(b: byte)
    requires b < 128
    ensures IsText([b])
  {
    assert FrontWidth([b]) == 1 && [b][1..] == [];
  }

  lemma OneDimension(n: nat)
    requires n <= 1
    ensures SmallDims([n]) && TensorBytes([n], F32) == Some(4 * n)
  {
    assert [n][..0] == [] && Elements([]) == Some(1);
    assert Elements([n]) == Some(n);
  }

  lemma SmallFile(ts: seq<Tensor>)
    requires |ts| == 2 && |ts[0].data| + |ts[1].data| <= 4 && |ts[0].name| == |ts[1].name| == |ts[0].shape| == |ts[1].shape| == 1
    ensures WritableKvs([]) && |Print([], ts)| <= U64_MAX
  {
    hide WriteEntry, WriteFixed, Align;
    assert Running(ts, 0) == 0 && Running(ts, 1) == OffsetAt(ts, 0) + |ts[0].data|;
    assert Running(ts, 2) == OffsetAt(ts, 1) + |ts[1].data|;
    assert |WriteEntries(ts, 0)| == 0 && |WriteEntries(ts, 1)| <= 100 && |WriteEntries(ts, 2)| <= 200;
  }
}
