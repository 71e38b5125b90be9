/** The file reader: header, metadata, tensor directory and the views of the tensor data. */
module Gguf {
  import opened Wrappers
  import opened Utf8
  import opened GgufBytes

  const MAGIC: nat := 0x4655_4747
  const MAX_COUNT: nat := 1_000_000
  const MAX_DIMS: nat := 4
  const DEFAULT_ALIGNMENT: nat := 32
  const SCALE_BLOCK: nat := 32

  /** Tensor types by their tags, those the reader can size. */
  const F32: nat := 0
  const F16: nat := 1
  const Q4_0: nat := 2
  const Q8_0: nat := 8
  const Q4K: nat := 12
  const Q6K: nat := 14
  const I2S: nat := 36

  // ---------------------------------------------------------------------------
  // Metadata
  // ---------------------------------------------------------------------------

  datatype KV = KV(key: seq<byte>, value: Value)

  function ReadKv(data: seq<byte>, pos: nat): (r: Option<Read<KV>>)
    ensures r.Some? ==> pos + 13 <= r.value.next <= |data|
  {
    var key :- ReadString(data, pos);
    var value :- ReadValue(data, key.next);
    Some(Read(KV(key.value, value.value), value.next))
  }

  function ReadKvs(data: seq<byte>, pos: nat, n: nat): (r: Option<Read<seq<KV>>>)
    requires pos <= |data|
    ensures r.Some? ==> |r.value.value| == n && pos + 13 * n <= r.value.next <= |data|
  {
    if n == 0 then Some(Read([], pos)) else
    var init :- ReadKvs(data, pos, n - 1);
    var last :- ReadKv(data, init.next);
    Some(Read(init.value + [last.value], last.next))
  }

  /** Later keys replace earlier ones. */
  function MapOf(kvs: seq<KV>): map<seq<byte>, Value> {
    if kvs == [] then map[] else
    MapOf(kvs[..|kvs| - 1])[kvs[|kvs| - 1].key := kvs[|kvs| - 1].value]
  }

  /** Unsigned integers, and signed ones of 32 or 64 bits that are not negative. */
  function AsU64(v: Value): Option<nat> {
    match v
    case Number(tag, bits) =>
      if tag == UINT8 || tag == UINT16 || tag == UINT32 || tag == UINT64 then Some(bits)
      else if tag == INT32 && bits < 0x8000_0000 then Some(bits)
      else if tag == INT64 && bits < 0x8000_0000_0000_0000 then Some(bits)
      else None
    case _ => None
  }

  /** The bytes of "general.alignment". */
  const ALIGNMENT_KEY: seq<byte> :=
    [103, 101, 110, 101, 114, 97, 108, 46, 97, 108, 105, 103, 110, 109, 101, 110, 116]

  function AlignmentOf(metadata: map<seq<byte>, Value>): nat {
    if ALIGNMENT_KEY in metadata && AsU64(metadata[ALIGNMENT_KEY]).Some? then AsU64(metadata[ALIGNMENT_KEY]).value
    else DEFAULT_ALIGNMENT
  }

  predicate IsPowerOfTwo(n: nat) {
    n == 1 || (n > 1 && n % 2 == 0 && IsPowerOfTwo(n / 2))
  }

  /** The next multiple, when a 64-bit offset can hold it. */
  function AlignUp(offset: nat, alignment: nat): (r: Option<nat>)
    requires alignment > 0
    ensures r.Some? ==> r.value % alignment == 0 && offset <= r.value < offset + alignment
  {
    if offset % alignment == 0 then Some(offset)
    else if offset + (alignment - offset % alignment) <= U64_MAX then
      AlignedSum(offset, alignment);
      Some(offset + (alignment - offset % alignment))
    else None
  }

  lemma AlignedSum(offset: nat, alignment: nat)
    requires alignment > 0 && offset % alignment != 0
    ensures (offset + (alignment - offset % alignment)) % alignment == 0
  {
    var q := offset / alignment;
    assert offset + (alignment - offset % alignment) == (q + 1) * alignment;
    Multiple(q + 1, alignment);
  }

  lemma Multiple(q: nat, alignment: nat)
    requires alignment > 0
    ensures (q * alignment) % alignment == 0
  {
    var d, r := q * alignment / alignment, q * alignment % alignment;
    assert q * alignment == alignment * d + r;
    assert alignment * (q - d) == alignment * q - alignment * d;
    AtLeastOnce(q - d, alignment);
    assert q == d;
  }

  lemma AtLeastOnce(k: int, n: nat)
    ensures k >= 1 ==> n * k >= n
    ensures k <= -1 ==> n * k <= 0 - n
  {
  }

  // ---------------------------------------------------------------------------
  // Tensor directory
  // ---------------------------------------------------------------------------

  /** One directory entry, and where its type field is; its offset field is the eight bytes after that. */
  datatype Entry = Entry(name: seq<byte>, shape: seq<nat>, raw: nat, rel: nat, dtypeAt: nat) {
    function End(): nat { dtypeAt + 12 }
  }

  function ReadDims(data: seq<byte>, pos: nat, n: nat): (r: Option<Read<seq<nat>>>)
    requires pos <= |data|
    ensures r.Some? ==> |r.value.value| == n && r.value.next == pos + 8 * n <= |data|
  {
    if n == 0 then Some(Read([], pos)) else
    var init :- ReadDims(data, pos, n - 1);
    var d :- ReadInt(data, init.next, 8);
    Some(Read(init.value + [d.value], d.next))
  }

  function ReadEntry(data: seq<byte>, pos: nat): (r: Option<Entry>)
    ensures r.Some? ==> pos + 24 <= r.value.End() <= |data| && pos + 12 <= r.value.dtypeAt
  {
    var name :- ReadString(data, pos);
    var dims :- ReadInt(data, name.next, 4);
    if dims.value > MAX_DIMS then None else
    var shape :- ReadDims(data, dims.next, dims.value);
    var raw :- ReadInt(data, shape.next, 4);
    var rel :- ReadInt(data, raw.next, 8);
    Some(Entry(name.value, shape.value, raw.value, rel.value, shape.next))
  }

  function EndOf(entries: seq<Entry>, pos: nat): nat {
    if entries == [] then pos else entries[|entries| - 1].End()
  }

  function ReadEntries(data: seq<byte>, pos: nat, n: nat): (r: Option<seq<Entry>>)
    requires pos <= |data|
    ensures r.Some? ==> |r.value| == n && pos + 24 * n <= EndOf(r.value, pos) <= |data|
  {
    if n == 0 then Some([]) else
    var init :- ReadEntries(data, pos, n - 1);
    var last :- ReadEntry(data, EndOf(init, pos));
    Some(init + [last])
  }

  // ---------------------------------------------------------------------------
  // Byte lengths
  // ---------------------------------------------------------------------------

  function CheckedMul(a: nat, b: nat): Option<nat> {
    if a * b <= U64_MAX then Some(a * b) else None
  }

  /** The product of the dimensions, checked at every step. */
  function Elements(shape: seq<nat>): Option<nat> {
    if shape == [] then Some(1) else
    var init :- Elements(shape[..|shape| - 1]);
    CheckedMul(init, shape[|shape| - 1])
  }

  /** Whole blocks in every row; an empty row takes nothing. */
  function RowLocal(shape: seq<nat>, perBlock: nat, blockBytes: nat): Option<nat>
    requires perBlock > 0
  {
    if shape == [] then None
    else if shape[0] == 0 then Some(0)
    else if shape[0] % perBlock != 0 then None
    else
      var rows :- Elements(shape[1..]);
      var rowBytes :- CheckedMul(shape[0] / perBlock, blockBytes);
      CheckedMul(rowBytes, rows)
  }

  /** Elements and bytes of a block, for types laid out without regard to rows. */
  function Layout(raw: nat): (r: Option<(nat, nat)>)
    ensures r.Some? ==> r.value.0 > 0
  {
    if raw == F32 then Some((1, 4))
    else if raw == F16 || raw == 30 then Some((1, 2))
    else if raw == 28 then Some((1, 8))
    else if raw == 24 then Some((1, 1))
    else if raw == 25 then Some((1, 2))
    else if raw == 26 then Some((1, 4))
    else if raw == 27 then Some((1, 8))
    else if raw == 3 then Some((32, 20))
    else if raw == 6 then Some((32, 22))
    else if raw == 7 then Some((32, 24))
    else if raw == 9 then Some((32, 40))
    else if raw == 10 then Some((256, 84))
    else if raw == 11 then Some((256, 110))
    else if raw == 13 then Some((256, 176))
    else if raw == 15 then Some((256, 292))
    else if raw == I2S then Some((128, 32))
    else if raw == 37 then Some((1, 1))
    else None
  }

  /** Bytes of a tensor's primary data; none when the shape does not suit the type or the type has no known size. */
  function TensorBytes(shape: seq<nat>, raw: nat): Option<nat> {
    if raw == Q4_0 then RowLocal(shape, 32, 18)
    else if raw == Q8_0 then RowLocal(shape, 32, 34)
    else if raw == Q4K then RowLocal(shape, 256, 144)
    else if raw == Q6K then RowLocal(shape, 256, 210)
    else
      var n :- Elements(shape);
      if n == 0 then Some(0) else
      var layout :- Layout(raw);
      if n % layout.0 != 0 then None else CheckedMul(n / layout.0, layout.1)
  }

  // ---------------------------------------------------------------------------
  // Views
  // ---------------------------------------------------------------------------

  datatype View = View(name: seq<byte>, shape: seq<nat>, raw: nat, offset: nat, byteLen: nat,
                       data: seq<byte>, scale: Option<seq<byte>>)

  /** Bytes of the primary data and, for the ternary type, its scale block. */
  function Footprint(e: Entry): nat
    requires TensorBytes(e.shape, e.raw).Some?
  {
    TensorBytes(e.shape, e.raw).value + (if e.raw == I2S then SCALE_BLOCK else 0)
  }

  /** Entry `i` lies in the file, at an offset of its own, and ends before the next. */
  predicate EntryFits(fileLen: nat, start: nat, entries: seq<Entry>, i: nat)
    requires i < |entries|
  {
    && start + entries[i].rel <= U64_MAX
    && TensorBytes(entries[i].shape, entries[i].raw).Some?
    && start + entries[i].rel + Footprint(entries[i]) <= fileLen
    && forall j :: 0 <= j < |entries| && j != i ==>
         entries[j].rel != entries[i].rel
         && (entries[j].rel > entries[i].rel ==> entries[i].rel + Footprint(entries[i]) <= entries[j].rel)
  }

  function ViewOf(data: seq<byte>, start: nat, entries: seq<Entry>, i: nat): View
    requires i < |entries| && EntryFits(|data|, start, entries, i)
  {
    var e := entries[i];
    var offset, len := start + e.rel, TensorBytes(e.shape, e.raw).value;
    View(e.name, e.shape, e.raw, offset, len, data[offset..offset + len],
         if e.raw == I2S then Some(data[offset + len..offset + len + SCALE_BLOCK]) else None)
  }

  // ---------------------------------------------------------------------------
  // The whole file
  // ---------------------------------------------------------------------------

  datatype Header = Header(version: nat, metadata: map<seq<byte>, Value>, alignment: nat,
                           metaEnd: nat, entries: seq<Entry>, dataStart: nat)

  datatype GgufFile = GgufFile(header: Header, tensors: seq<View>)

  predicate CountFits(count: nat, remaining: nat, entryBytes: nat) {
    count <= MAX_COUNT && count * entryBytes <= remaining
  }

  /** Metadata, directory and data section follow one another. */
  predicate WellPlaced(h: Header, fileLen: nat) {
    && h.alignment > 0
    && 24 <= h.metaEnd <= EndOf(h.entries, h.metaEnd) <= fileLen
    && EndOf(h.entries, h.metaEnd) <= h.dataStart
    && (h.entries != [] ==> h.dataStart <= fileLen)
  }

  function ParseHeader(data: seq<byte>): (r: Option<Header>)
    ensures r.Some? ==> WellPlaced(r.value, |data|)
  {
    var magic :- ReadInt(data, 0, 4);
    var version :- ReadInt(data, 4, 4);
    var tensors :- ReadInt(data, 8, 8);
    var kvCount :- ReadInt(data, 16, 8);
    if magic.value != MAGIC || (version.value != 2 && version.value != 3) then None
    else if !CountFits(tensors.value, |data| - 24, 24) || !CountFits(kvCount.value, |data| - 24, 13) then None
    else
      var kvs :- ReadKvs(data, 24, kvCount.value);
      var alignment := AlignmentOf(MapOf(kvs.value));
      if alignment == 0 || !IsPowerOfTwo(alignment) then None
      else if !CountFits(tensors.value, |data| - kvs.next, 24) then None
      else
        var entries :- ReadEntries(data, kvs.next, tensors.value);
        var start :- AlignUp(EndOf(entries, kvs.next), alignment);
        if entries != [] && start > |data| then None else
        Some(Header(version.value, MapOf(kvs.value), alignment, kvs.next, entries, start))
  }

  predicate FirstFit(fileLen: nat, h: Header, n: nat) {
    n <= |h.entries| && forall i: nat :: i < n ==> EntryFits(fileLen, h.dataStart, h.entries, i)
  }

  /** The first `n` views. */
  function Views(data: seq<byte>, h: Header, n: nat): (r: seq<View>)
    requires FirstFit(|data|, h, n)
    ensures |r| == n
  {
    if n == 0 then [] else Views(data, h, n - 1) + [ViewOf(data, h.dataStart, h.entries, n - 1)]
  }

  function ParseFile(data: seq<byte>): Option<GgufFile> {
    var h :- ParseHeader(data);
    if FirstFit(|data|, h, |h.entries|) then Some(GgufFile(h, Views(data, h, |h.entries|))) else None
  }

  lemma {:induction false} ViewsAt(data: seq<byte>, h: Header, n: nat, i: nat)
    requires i < n && FirstFit(|data|, h, n)
    ensures Views(data, h, n)[i] == ViewOf(data, h.dataStart, h.entries, i)
  {
    hide EntryFits, ViewOf;
    if i < n - 1 { ViewsAt(data, h, n - 1, i); }
  }

  // ---------------------------------------------------------------------------
  // The parser as it runs
  // ---------------------------------------------------------------------------

  lemma {:induction false} KvsStop(data: seq<byte>, pos: nat, n: nat, m: nat)
    requires pos <= |data| && n <= m && ReadKvs(data, pos, n).None?
    ensures ReadKvs(data, pos, m).None?
  {
    hide ReadKv;
    if n < m { KvsStop(data, pos, n, m - 1); }
  }

  method ParseMetadata(data: seq<byte>, pos: nat, count: nat) returns (r: Option<Read<map<seq<byte>, Value>>>)
    requires pos <= |data|
    ensures r.Some? == ReadKvs(data, pos, count).Some?
    ensures r.Some? ==> r.value == Read(MapOf(ReadKvs(data, pos, count).value.value), ReadKvs(data, pos, count).value.next)
  {
    hide ReadKv;
    var metadata: map<seq<byte>, Value> := map[];
    var at: nat := pos;
    ghost var kvs: seq<KV> := [];
    var i := 0;
    while i < count
      invariant 0 <= i <= count
      invariant ReadKvs(data, pos, i) == Some(Read(kvs, at)) && metadata == MapOf(kvs)
    {
      var kv := ReadKv(data, at);
      if kv.None? {
        assert ReadKvs(data, pos, i + 1).None?;
        KvsStop(data, pos, i + 1, count);
        return None;
      }
      metadata := metadata[kv.value.value.key := kv.value.value.value];
      kvs := kvs + [kv.value.value];
      assert kvs[..|kvs| - 1] + [kv.value.value] == kvs;
      at := kv.value.next;
      i := i + 1;
    }
    r := Some(Read(metadata, at));
  }

  lemma {:induction false} EntriesStop(data: seq<byte>, pos: nat, n: nat, m: nat)
    requires pos <= |data| && n <= m && ReadEntries(data, pos, n).None?
    ensures ReadEntries(data, pos, m).None?
  {
    hide ReadEntry;
    if n < m { EntriesStop(data, pos, n, m - 1); }
  }

  method ParseDirectory(data: seq<byte>, pos: nat, count: nat) returns (r: Option<seq<Entry>>)
    requires pos <= |data|
    ensures r == ReadEntries(data, pos, count)
  {
    hide ReadEntry;
    var entries: seq<Entry> := [];
    var i := 0;
    while i < count
      invariant 0 <= i <= count
      invariant ReadEntries(data, pos, i) == Some(entries)
    {
      var e := ReadEntry(data, EndOf(entries, pos));
      if e.None? {
        assert ReadEntries(data, pos, i + 1).None?;
        EntriesStop(data, pos, i + 1, count);
        return None;
      }
      entries := entries + [e.value];
      i := i + 1;
    }
    r := Some(entries);
  }

  /** The least offset above a given one. */
  method NextOffset(entries: seq<Entry>, rel: nat) returns (next: Option<nat>)
    ensures next.Some? ==> next.value > rel && exists j :: 0 <= j < |entries| && entries[j].rel == next.value
    ensures forall j :: 0 <= j < |entries| && entries[j].rel > rel ==> next.Some? && next.value <= entries[j].rel
  {
    next := None;
    var j := 0;
    while j < |entries|
      invariant 0 <= j <= |entries|
      invariant next.Some? ==> next.value > rel && exists k :: 0 <= k < j && entries[k].rel == next.value
      invariant forall k :: 0 <= k < j && entries[k].rel > rel ==> next.Some? && next.value <= entries[k].rel
    {
      if entries[j].rel > rel && (next.None? || entries[j].rel < next.value) { next := Some(entries[j].rel); }
      j := j + 1;
    }
  }

  method SharesOffset(entries: seq<Entry>, i: nat) returns (shares: bool)
    requires i < |entries|
    ensures shares <==> exists j :: 0 <= j < |entries| && j != i && entries[j].rel == entries[i].rel
  {
    var j := 0;
    while j < |entries|
      invariant 0 <= j <= |entries|
      invariant forall k :: 0 <= k < j && k != i ==> entries[k].rel != entries[i].rel
    {
      if j != i && entries[j].rel == entries[i].rel { return true; }
      j := j + 1;
    }
    shares := false;
  }

  /**
    One tensor's checks, in the order the parser makes them. It also rejects a tensor when
    the next one's absolute offset is not representable: that tensor is then rejected too.
    */
  method BuildView(data: seq<byte>, start: nat, entries: seq<Entry>, i: nat) returns (r: Option<View>)
    requires i < |entries| && |data| <= U64_MAX
    ensures r.Some? ==> EntryFits(|data|, start, entries, i) && r.value == ViewOf(data, start, entries, i)
    ensures r.None? ==> exists k: nat :: k < |entries| && !EntryFits(|data|, start, entries, k)
  {
    hide TensorBytes;
    var e := entries[i];
    if start + e.rel > U64_MAX {
      assert !EntryFits(|data|, start, entries, i);
      return None;
    }
    var shares := SharesOffset(entries, i);
    if shares {
      assert !EntryFits(|data|, start, entries, i);
      return None;
    }
    var next := NextOffset(entries, e.rel);
    if next.Some? && start + next.value > U64_MAX {
      ghost var k :| 0 <= k < |entries| && entries[k].rel == next.value;
      assert !EntryFits(|data|, start, entries, k);
      return None;
    }
    var len := TensorBytes(e.shape, e.raw);
    if len.None? {
      assert !EntryFits(|data|, start, entries, i);
      return None;
    }
    var offset := start + e.rel;
    var end := offset + len.value;
    if end > |data| || (next.Some? && end > start + next.value) {
      assert !EntryFits(|data|, start, entries, i);
      return None;
    }
    var scale: Option<seq<byte>> := None;
    if e.raw == I2S {
      var scaleEnd := end + SCALE_BLOCK;
      if scaleEnd > |data| || (next.Some? && scaleEnd > start + next.value) {
        assert !EntryFits(|data|, start, entries, i);
        return None;
      }
      scale := Some(data[end..scaleEnd]);
    }
    r := Some(View(e.name, e.shape, e.raw, offset, len.value, data[offset..end], scale));
  }

  method Parse(data: seq<byte>) returns (r: Option<GgufFile>)
    requires |data| <= U64_MAX
    ensures r == ParseFile(data)
  {
    hide ParseHeader, Footprint, TensorBytes, WellPlaced;
    var header := ParseHead(data);
    if header.None? { return None; }
    var h := header.value;
    var tensors: seq<View> := [];
    var i := 0;
    while i < |h.entries|
      invariant FirstFit(|data|, h, i)
      invariant tensors == Views(data, h, i)
    {
      var view := BuildView(data, h.dataStart, h.entries, i);
      if view.None? { return None; }
      tensors := tensors + [view.value];
      i := i + 1;
    }
    r := Some(GgufFile(h, tensors));
  }

  method ParseHead(data: seq<byte>) returns (r: Option<Header>)
    ensures r == ParseHeader(data)
  {
    hide ReadKvs, ReadEntries, MapOf, IsPowerOfTwo, AlignUp, FromLE;
    if |data| < 24 { return None; }
    var magic, version := FromLE(data[0..4]), FromLE(data[4..8]);
    var tensorCount, kvCount := FromLE(data[8..16]), FromLE(data[16..24]);
    if magic != MAGIC || (version != 2 && version != 3) { return None; }
    if !CountFits(tensorCount, |data| - 24, 24) || !CountFits(kvCount, |data| - 24, 13) { return None; }
    var metadata := ParseMetadata(data, 24, kvCount);
    if metadata.None? { return None; }
    var alignment := AlignmentOf(metadata.value.value);
    if alignment == 0 || !IsPowerOfTwo(alignment) { return None; }
    var metaEnd := metadata.value.next;
    if !CountFits(tensorCount, |data| - metaEnd, 24) { return None; }
    var entries := ParseDirectory(data, metaEnd, tensorCount);
    if entries.None? { return None; }
    var start := AlignUp(EndOf(entries.value, metaEnd), alignment);
    if start.None? { return None; }
    if entries.value != [] && start.value > |data| { return None; }
    r := Some(Header(version, metadata.value.value, alignment, metaEnd, entries.value, start.value));
  }
}
