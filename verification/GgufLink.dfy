/**
  Relinking a file: the embedding quantised, every tensor laid out again, the directory
  patched in place. What the result parses to is what the source parsed to, but for the
  embedding's representation and the offsets.
  */
module GgufLink {
  import opened Wrappers
  import opened Utf8
  import opened GgufBytes
  import opened Gguf

  /** The bytes of "token_embd.weight". */
  const TOKEN_EMBD: seq<byte> :=
    [116, 111, 107, 101, 110, 95, 101, 109, 98, 100, 46, 119, 101, 105, 103, 104, 116]

  // ---------------------------------------------------------------------------
  // Patching the directory
  // ---------------------------------------------------------------------------

  /** The type and offset a directory entry is given. */
  datatype Fields = Fields(raw: nat, rel: nat)

  predicate IsFields(f: Fields) {
    f.raw < 0x1_0000_0000 && f.rel <= U64_MAX
  }

  predicate FieldsAt(data: seq<byte>, e: Entry, f: Fields) {
    StandsAt(data, e.dtypeAt, ToLE(f.raw, 4)) && StandsAt(data, e.dtypeAt + 4, ToLE(f.rel, 8))
  }

  /** Where entry `i` starts. */
  function StartOf(entries: seq<Entry>, pos: nat, i: nat): nat
    requires i <= |entries|
  {
    if i == 0 then pos else entries[i - 1].End()
  }

  function Changed(e: Entry, f: Fields): Entry {
    e.(raw := f.raw, rel := f.rel)
  }

  /** The two headers agree everywhere but in the entries' type and offset fields. */
  ghost predicate SameButFields(source: seq<byte>, header: seq<byte>, h: Header) {
    && Agree(source, header, 0, h.metaEnd)
    && (forall i: nat :: i < |h.entries| ==> Agree(source, header, StartOf(h.entries, h.metaEnd, i), h.entries[i].dtypeAt))
    && Agree(source, header, StartOf(h.entries, h.metaEnd, |h.entries|), h.dataStart)
  }

  /** Bytes written over others. */
  function PatchAt(data: seq<byte>, at: nat, bytes: seq<byte>): (r: seq<byte>)
    requires at + |bytes| <= |data|
    ensures |r| == |data|
  {
    data[..at] + bytes + data[at + |bytes|..]
  }

  lemma PatchStands(data: seq<byte>, at: nat, bytes: seq<byte>)
    requires at + |bytes| <= |data|
    ensures StandsAt(PatchAt(data, at, bytes), at, bytes)
  {
  }

  /** A patch leaves what lies wholly before or after it. */
  lemma PatchElsewhere(data: seq<byte>, at: nat, bytes: seq<byte>, from: nat, to: nat)
    requires at + |bytes| <= |data| && from <= to <= |data| && (to <= at || at + |bytes| <= from)
    ensures PatchAt(data, at, bytes)[from..to] == data[from..to]
  {
  }

  /** The directory's entries follow one another. */
  ghost predicate InOrder(entries: seq<Entry>, pos: nat) {
    forall i: nat :: i < |entries| ==> StartOf(entries, pos, i) <= entries[i].dtypeAt
  }

  lemma {:induction false} StartsGrow(entries: seq<Entry>, pos: nat, i: nat, j: nat)
    requires i <= j <= |entries| && InOrder(entries, pos)
    ensures StartOf(entries, pos, i) <= StartOf(entries, pos, j)
  {
    hide StartOf;
    if i < j {
      StartsGrow(entries, pos, i, j - 1);
      assert StartOf(entries, pos, j - 1) <= entries[j - 1].dtypeAt;
      NextStart(entries, pos, j - 1);
    }
  }

  lemma NextStart(entries: seq<Entry>, pos: nat, i: nat)
    requires i < |entries|
    ensures StartOf(entries, pos, i + 1) == entries[i].End() && StartOf(entries, pos, 0) == pos
  {
  }

  lemma {:induction false} EntriesInOrder(data: seq<byte>, pos: nat, n: nat)
    requires pos <= |data| && ReadEntries(data, pos, n).Some?
    ensures InOrder(ReadEntries(data, pos, n).value, pos)
  {
    hide ReadEntry;
    if n > 0 {
      EntriesInOrder(data, pos, n - 1);
      var init, all := ReadEntries(data, pos, n - 1).value, ReadEntries(data, pos, n).value;
      forall i: nat | i < n ensures StartOf(all, pos, i) <= all[i].dtypeAt {
        if i < n - 1 {
          assert StartOf(all, pos, i) == StartOf(init, pos, i) && all[i] == init[i];
        } else {
          assert StartOf(all, pos, i) == EndOf(init, pos);
        }
      }
    }
  }

  /** The two are the same before `from` and from `to` on. */
  predicate SameOutside(before: seq<byte>, after: seq<byte>, from: nat, to: nat) {
    |before| == |after| && from <= to <= |before| && before[..from] == after[..from] && before[to..] == after[to..]
  }

  lemma OutsideSlice(before: seq<byte>, after: seq<byte>, from: nat, to: nat, a: nat, b: nat)
    requires SameOutside(before, after, from, to) && a <= b <= |before| && (b <= from || to <= a)
    ensures after[a..b] == before[a..b]
  {
    forall k | a <= k < b ensures after[k] == before[k] {
      if b <= from {
        assert before[..from][k] == after[..from][k];
      } else {
        assert before[to..][k - to] == after[to..][k - to];
      }
    }
  }

  /** One entry's two fields, type then offset. */
  method PatchEntry(header: seq<byte>, e: Entry, f: Fields) returns (patched: seq<byte>)
    requires e.End() <= |header|
    ensures SameOutside(header, patched, e.dtypeAt, e.End()) && FieldsAt(patched, e, f)
  {
    hide ToLE;
    var first := PatchAt(header, e.dtypeAt, ToLE(f.raw, 4));
    patched := PatchAt(first, e.dtypeAt + 4, ToLE(f.rel, 8));
    PatchStands(header, e.dtypeAt, ToLE(f.raw, 4));
    PatchStands(first, e.dtypeAt + 4, ToLE(f.rel, 8));
    PatchElsewhere(first, e.dtypeAt + 4, ToLE(f.rel, 8), e.dtypeAt, e.dtypeAt + 4);
    PatchElsewhere(header, e.dtypeAt, ToLE(f.raw, 4), 0, e.dtypeAt);
    PatchElsewhere(first, e.dtypeAt + 4, ToLE(f.rel, 8), 0, e.dtypeAt);
    PatchElsewhere(header, e.dtypeAt, ToLE(f.raw, 4), e.End(), |header|);
    PatchElsewhere(first, e.dtypeAt + 4, ToLE(f.rel, 8), e.End(), |header|);
  }

  lemma Apart(h: Header, i: nat, j: nat)
    requires i < j < |h.entries| && InOrder(h.entries, h.metaEnd)
    ensures h.entries[i].End() <= h.entries[j].dtypeAt
  {
    hide StartOf;
    NextStart(h.entries, h.metaEnd, i);
    StartsGrow(h.entries, h.metaEnd, i + 1, j);
  }

  lemma AgreeKept(source: seq<byte>, before: seq<byte>, after: seq<byte>, from: nat, to: nat, a: nat, b: nat)
    requires SameOutside(before, after, from, to) && Agree(source, before, a, b) && (b <= from || to <= a)
    ensures Agree(source, after, a, b)
  {
    OutsideSlice(before, after, from, to, a, b);
  }

  /** Patching one entry changes nothing but its fields. */
  lemma OutsideKept(source: seq<byte>, before: seq<byte>, after: seq<byte>, h: Header, i: nat)
    requires i < |h.entries| && InOrder(h.entries, h.metaEnd)
    requires SameOutside(before, after, h.entries[i].dtypeAt, h.entries[i].End()) && SameButFields(source, before, h)
    ensures SameButFields(source, after, h)
  {
    hide SameOutside, Agree, StartOf;
    var n, from, to := |h.entries|, h.entries[i].dtypeAt, h.entries[i].End();
    NextStart(h.entries, h.metaEnd, i);
    StartsGrow(h.entries, h.metaEnd, 0, i);
    AgreeKept(source, before, after, from, to, 0, h.metaEnd);
    forall j: nat | j < n
      ensures Agree(source, after, StartOf(h.entries, h.metaEnd, j), h.entries[j].dtypeAt)
    {
      assert Agree(source, before, StartOf(h.entries, h.metaEnd, j), h.entries[j].dtypeAt);
      if j < i { Apart(h, j, i); }
      if i < j { StartsGrow(h.entries, h.metaEnd, i + 1, j); }
      AgreeKept(source, before, after, from, to, StartOf(h.entries, h.metaEnd, j), h.entries[j].dtypeAt);
    }
    StartsGrow(h.entries, h.metaEnd, i + 1, n);
    AgreeKept(source, before, after, from, to, StartOf(h.entries, h.metaEnd, n), h.dataStart);
  }

  lemma OtherFieldsKept(before: seq<byte>, after: seq<byte>, h: Header, i: nat, j: nat, g: Fields)
    requires i < |h.entries| && j < |h.entries| && i != j && InOrder(h.entries, h.metaEnd)
    requires SameOutside(before, after, h.entries[i].dtypeAt, h.entries[i].End()) && FieldsAt(before, h.entries[j], g)
    ensures FieldsAt(after, h.entries[j], g)
  {
    hide ToLE;
    var e, o := h.entries[i], h.entries[j];
    if i < j { Apart(h, i, j); } else { Apart(h, j, i); }
    OutsideSlice(before, after, e.dtypeAt, e.End(), o.dtypeAt, o.dtypeAt + 4);
    OutsideSlice(before, after, e.dtypeAt, e.End(), o.dtypeAt + 4, o.dtypeAt + 12);
  }

  // ---------------------------------------------------------------------------
  // Reading a patched directory
  // ---------------------------------------------------------------------------

  lemma {:induction false} DimsLocal(data: seq<byte>, other: seq<byte>, pos: nat, n: nat)
    requires pos <= |data| && ReadDims(data, pos, n).Some? && Agree(data, other, pos, pos + 8 * n)
    ensures ReadDims(other, pos, n) == ReadDims(data, pos, n)
  {
    hide FromLE;
    if n > 0 {
      AgreePart(data, other, pos, pos + 8 * n, pos, pos + 8 * (n - 1));
      DimsLocal(data, other, pos, n - 1);
      AgreePart(data, other, pos, pos + 8 * n, pos + 8 * (n - 1), pos + 8 * n);
      IntLocal(data, other, pos + 8 * (n - 1), 8);
    }
  }

  lemma KvLocal(data: seq<byte>, other: seq<byte>, pos: nat)
    requires ReadKv(data, pos).Some? && Agree(data, other, pos, ReadKv(data, pos).value.next)
    ensures ReadKv(other, pos) == ReadKv(data, pos)
  {
    hide ReadString, ReadValue;
    var end := ReadKv(data, pos).value.next;
    var mid := ReadString(data, pos).value.next;
    AgreePart(data, other, pos, end, pos, mid);
    StringLocal(data, other, pos);
    AgreePart(data, other, pos, end, mid, end);
    ValueLocal(data, other, mid);
  }

  lemma {:induction false} KvsLocal(data: seq<byte>, other: seq<byte>, pos: nat, n: nat)
    requires pos <= |data| && ReadKvs(data, pos, n).Some? && Agree(data, other, pos, ReadKvs(data, pos, n).value.next)
    ensures pos <= |other| && ReadKvs(other, pos, n) == ReadKvs(data, pos, n)
  {
    hide ReadKv;
    if n > 0 {
      var end, mid := ReadKvs(data, pos, n).value.next, ReadKvs(data, pos, n - 1).value.next;
      AgreePart(data, other, pos, end, pos, mid);
      KvsLocal(data, other, pos, n - 1);
      AgreePart(data, other, pos, end, mid, end);
      KvLocal(data, other, mid);
    }
  }

  /** An entry with other fields is the same entry with those. */
  lemma EntryChanged(data: seq<byte>, other: seq<byte>, pos: nat, f: Fields)
    requires ReadEntry(data, pos).Some? && IsFields(f)
    requires Agree(data, other, pos, ReadEntry(data, pos).value.dtypeAt)
    requires FieldsAt(other, ReadEntry(data, pos).value, f)
    ensures ReadEntry(other, pos) == Some(Changed(ReadEntry(data, pos).value, f))
  {
    hide FromLE, ToLE, ReadString, ReadDims, ReadInt;
    var e := ReadEntry(data, pos).value;
    var name := ReadString(data, pos).value;
    var count := ReadInt(data, name.next, 4).value;
    var dims := ReadDims(data, count.next, count.value).value;
    AgreePart(data, other, pos, e.dtypeAt, pos, name.next);
    StringLocal(data, other, pos);
    AgreePart(data, other, pos, e.dtypeAt, name.next, count.next);
    IntLocal(data, other, name.next, 4);
    AgreePart(data, other, pos, e.dtypeAt, count.next, dims.next);
    DimsLocal(data, other, count.next, count.value);
    Limits();
    IntWritten(other, e.dtypeAt, f.raw, 4);
    IntWritten(other, e.dtypeAt + 4, f.rel, 8);
  }

  /** The first `n` entries with their new fields. */
  function ChangedAll(entries: seq<Entry>, fields: seq<Fields>, n: nat): (r: seq<Entry>)
    requires n <= |entries| && n <= |fields|
    ensures |r| == n
  {
    if n == 0 then [] else ChangedAll(entries, fields, n - 1) + [Changed(entries[n - 1], fields[n - 1])]
  }

  lemma {:induction false} ChangedAt(entries: seq<Entry>, fields: seq<Fields>, n: nat, i: nat)
    requires i < n <= |entries| && n <= |fields|
    ensures ChangedAll(entries, fields, n)[i] == Changed(entries[i], fields[i])
  {
    if i < n - 1 { ChangedAt(entries, fields, n - 1, i); }
  }

  lemma {:induction false} EntriesPrefix(data: seq<byte>, pos: nat, n: nat)
    requires pos <= |data| && n > 0 && ReadEntries(data, pos, n).Some?
    ensures ReadEntries(data, pos, n - 1).Some?
    ensures ReadEntries(data, pos, n).value[..n - 1] == ReadEntries(data, pos, n - 1).value
    ensures ReadEntry(data, StartOf(ReadEntries(data, pos, n).value, pos, n - 1)) == Some(ReadEntries(data, pos, n).value[n - 1])
  {
    hide ReadEntry;
  }

  /** What reading entry `i` with its new fields needs of the other file. */
  ghost predicate EntryOk(data: seq<byte>, other: seq<byte>, pos: nat, entries: seq<Entry>, fields: seq<Fields>, i: nat)
    requires i < |entries| && i < |fields|
  {
    IsFields(fields[i]) && Agree(data, other, StartOf(entries, pos, i), entries[i].dtypeAt) && FieldsAt(other, entries[i], fields[i])
  }

  lemma {:induction false} EntriesChanged(data: seq<byte>, other: seq<byte>, pos: nat, n: nat, entries: seq<Entry>, fields: seq<Fields>)
    requires pos <= |data| && pos <= |other| && ReadEntries(data, pos, n) == Some(entries) && |fields| == |entries| == n
    requires forall i: nat :: i < n ==> EntryOk(data, other, pos, entries, fields, i)
    ensures ReadEntries(other, pos, n) == Some(ChangedAll(entries, fields, n))
    ensures EndOf(ChangedAll(entries, fields, n), pos) == EndOf(entries, pos)
  {
    hide ReadEntry, EntryOk;
    if n > 0 {
      var init, f := entries[..n - 1], fields[..n - 1];
      EntriesPrefix(data, pos, n);
      forall i: nat | i < n - 1 ensures EntryOk(data, other, pos, init, f, i) {
        assert EntryOk(data, other, pos, entries, fields, i);
        OkInPrefix(data, other, pos, entries, fields, n - 1, i);
      }
      EntriesChanged(data, other, pos, n - 1, init, f);
      PrefixChanged(entries, fields, n - 1);
      assert EntryOk(data, other, pos, entries, fields, n - 1);
      OkIsChanged(data, other, pos, entries, fields, n - 1);
    }
  }

  lemma OkInPrefix(data: seq<byte>, other: seq<byte>, pos: nat, entries: seq<Entry>, fields: seq<Fields>, n: nat, i: nat)
    requires i < n <= |entries| && n <= |fields| && EntryOk(data, other, pos, entries, fields, i)
    ensures EntryOk(data, other, pos, entries[..n], fields[..n], i)
  {
    assert StartOf(entries[..n], pos, i) == StartOf(entries, pos, i);
  }

  lemma OkIsChanged(data: seq<byte>, other: seq<byte>, pos: nat, entries: seq<Entry>, fields: seq<Fields>, i: nat)
    requires i < |entries| && i < |fields| && EntryOk(data, other, pos, entries, fields, i)
    requires ReadEntry(data, StartOf(entries, pos, i)) == Some(entries[i])
    ensures ReadEntry(other, StartOf(entries, pos, i)) == Some(Changed(entries[i], fields[i]))
  {
    EntryChanged(data, other, StartOf(entries, pos, i), fields[i]);
  }

  lemma {:induction false} PrefixChanged(entries: seq<Entry>, fields: seq<Fields>, n: nat)
    requires n <= |entries| && n <= |fields|
    ensures ChangedAll(entries[..n], fields[..n], n) == ChangedAll(entries, fields, n)
  {
    forall i: nat | i < n ensures ChangedAll(entries[..n], fields[..n], n)[i] == ChangedAll(entries, fields, n)[i] {
      ChangedAt(entries[..n], fields[..n], n, i);
      ChangedAt(entries, fields, n, i);
    }
  }

  function ChangedHeader(h: Header, fields: seq<Fields>): Header
    requires |fields| == |h.entries|
  {
    h.(entries := ChangedAll(h.entries, fields, |fields|))
  }

  /** What a header says of the bytes it was read from. */
  ghost predicate Parts(data: seq<byte>, h: Header, count: nat, kvCount: nat) {
    && ReadInt(data, 0, 4) == Some(Read(MAGIC, 4)) && ReadInt(data, 4, 4) == Some(Read(h.version, 8))
    && (h.version == 2 || h.version == 3)
    && ReadInt(data, 8, 8) == Some(Read(count, 16)) && ReadInt(data, 16, 8) == Some(Read(kvCount, 24))
    && count <= MAX_COUNT && kvCount <= MAX_COUNT && 24 <= |data|
    && ReadKvs(data, 24, kvCount).Some? && ReadKvs(data, 24, kvCount).value.next == h.metaEnd
    && MapOf(ReadKvs(data, 24, kvCount).value.value) == h.metadata
    && h.alignment == AlignmentOf(h.metadata) && h.alignment > 0 && IsPowerOfTwo(h.alignment)
    && h.metaEnd <= |data| && ReadEntries(data, h.metaEnd, count) == Some(h.entries)
    && AlignUp(EndOf(h.entries, h.metaEnd), h.alignment) == Some(h.dataStart)
    && (h.entries != [] ==> h.dataStart <= |data|)
  }

  lemma HeaderHasParts(data: seq<byte>, h: Header)
    requires ParseHeader(data) == Some(h)
    ensures exists kvCount: nat :: Parts(data, h, |h.entries|, kvCount)
  {
    hide ReadKvs, ReadEntries, MapOf, IsPowerOfTwo, AlignUp, FromLE, AlignmentOf;
    var kvCount := ReadInt(data, 16, 8).value.value;
    assert Parts(data, h, |h.entries|, kvCount);
  }

  lemma PartsMakeHeader(data: seq<byte>, h: Header, count: nat, kvCount: nat)
    requires Parts(data, h, count, kvCount)
    ensures ParseHeader(data) == Some(h)
  {
    hide ReadKvs, ReadEntries, MapOf, IsPowerOfTwo, AlignUp, FromLE, ReadInt, AlignmentOf;
  }

  /** A file that begins with a patched header has that header. */
  lemma HeaderChanged(source: seq<byte>, out: seq<byte>, h: Header, fields: seq<Fields>)
    requires ParseHeader(source) == Some(h) && |fields| == |h.entries|
    requires SameButFields(source, out, h) && h.dataStart <= |out|
    requires forall i: nat :: i < |fields| ==> IsFields(fields[i]) && FieldsAt(out, h.entries[i], fields[i])
    ensures ParseHeader(out) == Some(ChangedHeader(h, fields))
  {
    hide ParseHeader, ReadKvs, ReadEntries, MapOf, IsPowerOfTwo, AlignUp, FromLE, ReadInt, ChangedAll, AlignmentOf, FieldsAt, IsFields;
    HeaderHasParts(source, h);
    var count := |h.entries|;
    var kvCount: nat :| Parts(source, h, count, kvCount);
    AgreePart(source, out, 0, h.metaEnd, 0, 4);
    IntLocal(source, out, 0, 4);
    AgreePart(source, out, 0, h.metaEnd, 4, 8);
    IntLocal(source, out, 4, 4);
    AgreePart(source, out, 0, h.metaEnd, 8, 16);
    IntLocal(source, out, 8, 8);
    AgreePart(source, out, 0, h.metaEnd, 16, 24);
    IntLocal(source, out, 16, 8);
    AgreePart(source, out, 0, h.metaEnd, 24, h.metaEnd);
    KvsLocal(source, out, 24, kvCount);
    forall i: nat | i < count ensures EntryOk(source, out, h.metaEnd, h.entries, fields, i) {
      assert Agree(source, out, StartOf(h.entries, h.metaEnd, i), h.entries[i].dtypeAt);
    }
    EntriesChanged(source, out, h.metaEnd, count, h.entries, fields);
    PartsMakeHeader(out, ChangedHeader(h, fields), count, kvCount);
  }
}
