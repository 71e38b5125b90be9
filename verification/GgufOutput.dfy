/** Writing the artifact, and what the written bytes parse to. */
module GgufOutput {
  import opened Wrappers
  import opened Utf8
  import opened GgufBytes
  import opened Gguf
  import opened GgufLink
  import opened GgufArtifact
  import GgufPrint

  // ---------------------------------------------------------------------------
  // Slot contents
  // ---------------------------------------------------------------------------

  /** Whole rows quantised one after another; a last partial row is dropped. */
  function QuantRows(q: seq<byte> -> seq<byte>, data: seq<byte>, rowBytes: nat): seq<byte>
    requires rowBytes > 0
    decreases |data|
  {
    if |data| < rowBytes then [] else q(data[..rowBytes]) + QuantRows(q, data[rowBytes..], rowBytes)
  }

  method WriteQ6K(q: seq<byte> -> seq<byte>, data: seq<byte>, rowBytes: nat) returns (out: seq<byte>)
    requires rowBytes > 0
    ensures out == QuantRows(q, data, rowBytes)
  {
    out := [];
    var at := 0;
    assert data[0..] == data;
    while at + rowBytes <= |data|
      invariant 0 <= at <= |data|
      invariant out + QuantRows(q, data[at..], rowBytes) == QuantRows(q, data, rowBytes)
    {
      var row := data[at..at + rowBytes];
      assert data[at..][..rowBytes] == row && data[at..][rowBytes..] == data[at + rowBytes..];
      assert out + (q(row) + QuantRows(q, data[at + rowBytes..], rowBytes))
          == (out + q(row)) + QuantRows(q, data[at + rowBytes..], rowBytes);
      out := out + q(row);
      at := at + rowBytes;
    }
    assert out + [] == out;
  }

  lemma {:induction false} QuantRowsLength(q: seq<byte> -> seq<byte>, data: seq<byte>, rowBytes: nat, outBytes: nat, rows: nat)
    requires rowBytes > 0 && |data| == rowBytes * rows
    requires forall r: seq<byte> :: |r| == rowBytes ==> |q(r)| == outBytes
    ensures |QuantRows(q, data, rowBytes)| == outBytes * rows
    decreases rows
  {
    if rows > 0 {
      assert rowBytes * rows == rowBytes * (rows - 1) + rowBytes;
      QuantRowsLength(q, data[rowBytes..], rowBytes, outBytes, rows - 1);
      assert outBytes * rows == outBytes * (rows - 1) + outBytes;
    } else {
      assert rowBytes * rows == 0;
    }
  }

  /** Bytes `width * r` to `width * r + width` of the data are `row`. */
  predicate HasRow(data: seq<byte>, width: nat, r: nat, row: seq<byte>) {
    width * r + width <= |data| && data[width * r..width * r + width] == row
  }

  lemma NextRow(width: nat, r: nat)
    requires r > 0
    ensures width * r == width * (r - 1) + width
  {
  }

  /** A row put in front moves the others one further. */
  lemma RowAfter(first: seq<byte>, more: seq<byte>, width: nat, r: nat, row: seq<byte>)
    requires |first| == width && r > 0 && HasRow(more, width, r - 1, row)
    ensures HasRow(first + more, width, r, row)
  {
    NextRow(width, r);
    var at := width * (r - 1);
    assert (first + more)[width + at..width + at + width] == more[at..at + width];
  }

  lemma RowFirst(first: seq<byte>, more: seq<byte>, width: nat)
    requires |first| == width
    ensures HasRow(first + more, width, 0, first)
  {
    assert width * 0 == 0;
    assert (first + more)[..width] == first;
  }

  /** Row `r` of the result is the quantised row `r` of the data, for every row. */
  lemma {:induction false} QuantRowAt(q: seq<byte> -> seq<byte>, data: seq<byte>, rowBytes: nat, outBytes: nat, rows: nat, r: nat)
    requires rowBytes > 0 && |data| == rowBytes * rows && r < rows
    requires forall x: seq<byte> :: |x| == rowBytes ==> |q(x)| == outBytes
    ensures rowBytes * r + rowBytes <= |data|
    ensures HasRow(QuantRows(q, data, rowBytes), outBytes, r, q(data[rowBytes * r..rowBytes * r + rowBytes]))
    decreases rows
  {
    hide HasRow;
    NextRow(rowBytes, rows);
    RowsPositive(rowBytes, rows - 1);
    var first, rest := data[..rowBytes], data[rowBytes..];
    if r == 0 {
      assert rowBytes * r == 0;
      RowFirst(q(first), QuantRows(q, rest, rowBytes), outBytes);
    } else {
      QuantRowAt(q, rest, rowBytes, outBytes, rows - 1, r - 1);
      NextRow(rowBytes, r);
      var at := rowBytes * (r - 1);
      assert data[rowBytes + at..rowBytes + at + rowBytes] == rest[at..at + rowBytes];
      RowAfter(q(first), QuantRows(q, rest, rowBytes), outBytes, r, q(rest[at..at + rowBytes]));
    }
  }

  lemma RowsPositive(width: nat, n: nat)
    ensures width * n >= 0
  {
  }

  /** Row `r` of the new data is the quantised row `r` of the old: 210 bytes for every 256 half-precision values. */
  predicate RowQuantised(p: Profile, before: seq<byte>, after: seq<byte>, width: nat, r: nat) {
    && 2 * width * r + 2 * width <= |before|
    && HasRow(after, width / 256 * 210, r, p.quantise(before[2 * width * r..2 * width * r + 2 * width]))
  }

  /** Row by row, in the order of the old data, and nothing else. */
  ghost predicate RowsQuantised(p: Profile, before: seq<byte>, after: seq<byte>, width: nat, rows: nat) {
    && |before| == 2 * width * rows && |after| == width / 256 * 210 * rows
    && forall r: nat :: r < rows ==> RowQuantised(p, before, after, width, r)
  }

  /** The embedding's new primary data. */
  function NewData(p: Profile, v: View): seq<byte>
    requires ValidEmbedding(p, v)
  {
    QuantRows(p.quantise, v.data, 2 * v.shape[0])
  }

  lemma HalfRows(w: nat, rows: nat, len: nat)
    requires w > 0 && Elements([w, rows]).Some?
    requires TensorBytes([w, rows], F16) == Some(len)
    ensures len == 2 * w * rows
  {
    assert [w, rows][..1] == [w] && [w][..0] == [];
    assert Elements([]) == Some(1) && Elements([w]).Some? ==> Elements([w]).value == w;
    assert w * rows * 2 == 2 * w * rows;
  }

  lemma SixBitRows(w: nat, rows: nat, len: nat)
    requires w > 0 && TensorBytes([w, rows], Q6K) == Some(len)
    ensures w % 256 == 0 && len == w / 256 * 210 * rows
  {
    assert [w, rows][1..] == [rows];
    assert [rows][..0] == [] && Elements([]) == Some(1);
    assert Elements([rows]).Some? ==> Elements([rows]).value == rows;
  }

  /** The quantised rows fill exactly the planned bytes. */
  lemma NewDataLength(p: Profile, v: View, bytes: nat)
    requires ValidEmbedding(p, v) && RowSized(p.quantise)
    requires TensorBytes(v.shape, F16) == Some(|v.data|) && TensorBytes(v.shape, Q6K) == Some(bytes)
    ensures |NewData(p, v)| == bytes
  {
    hide TensorBytes, Elements;
    var w, rows := v.shape[0], v.shape[1];
    assert v.shape == [w, rows];
    ElementsKnown(v.shape, |v.data|);
    HalfRows(w, rows, |v.data|);
    SixBitRows(w, rows, bytes);
    var rowBytes, outBytes := 2 * w, w / 256 * 210;
    forall r: seq<byte> | |r| == rowBytes ensures |p.quantise(r)| == outBytes {
      assert w == 256 * (w / 256);
      assert |r| == 512 * (w / 256);
    }
    QuantRowsLength(p.quantise, v.data, rowBytes, outBytes, rows);
  }

  lemma ElementsKnown(shape: seq<nat>, len: nat)
    requires TensorBytes(shape, F16) == Some(len)
    ensures Elements(shape).Some?
  {
    hide Elements;
  }

  /** The new data holds the quantised rows in the order of the old ones. */
  lemma NewDataRows(p: Profile, v: View)
    requires ValidEmbedding(p, v) && RowSized(p.quantise) && TensorBytes(v.shape, F16) == Some(|v.data|)
    ensures RowsQuantised(p, v.data, NewData(p, v), v.shape[0], v.shape[1])
  {
    hide TensorBytes, Elements, QuantRows;
    var w, rows := v.shape[0], v.shape[1];
    assert v.shape == [w, rows];
    ElementsKnown(v.shape, |v.data|);
    HalfRows(w, rows, |v.data|);
    SixBitRows(w, rows, TensorBytes(v.shape, Q6K).value);
    WholeBlocksSized(p, w);
    QuantRowsLength(p.quantise, v.data, 2 * w, w / 256 * 210, rows);
    forall r: nat | r < rows ensures RowQuantised(p, v.data, NewData(p, v), w, r) {
      QuantRowAt(p.quantise, v.data, 2 * w, w / 256 * 210, rows, r);
    }
  }

  lemma WholeBlocksSized(p: Profile, w: nat)
    requires RowSized(p.quantise) && w % 256 == 0
    ensures forall r: seq<byte> :: |r| == 2 * w ==> |p.quantise(r)| == w / 256 * 210
  {
    forall r: seq<byte> | |r| == 2 * w ensures |p.quantise(r)| == w / 256 * 210 {
      assert w == 256 * (w / 256);
      assert |r| == 512 * (w / 256);
    }
  }

  /** The slot lies in the source, and what is to be transformed can be. */
  predicate SlotInside(source: seq<byte>, p: Profile, f: GgufFile, q: Planned) {
    && q.source < |f.tensors|
    && f.tensors[q.source].offset <= PrimaryEnd(f.tensors[q.source]) <= q.slotEnd <= |source|
    && (q.transform ==> ValidEmbedding(p, f.tensors[q.source]))
  }

  /** What goes into slot `k` of the output. */
  function Content(source: seq<byte>, p: Profile, f: GgufFile, q: Planned): seq<byte>
    requires SlotInside(source, p, f, q)
  {
    var v := f.tensors[q.source];
    if q.transform then NewData(p, v) + source[PrimaryEnd(v)..q.slotEnd] else source[v.offset..q.slotEnd]
  }

  // ---------------------------------------------------------------------------
  // Facts of a plan
  // ---------------------------------------------------------------------------

  /** A source, its parse and a plan for it. */
  ghost predicate Linking(source: seq<byte>, p: Profile, f: GgufFile, plan: LinkPlan) {
    && ParseFile(source) == Some(f) && Accepted(p, f) && RowSized(p.quantise)
    && IsPlan(f, |source|, plan)
  }

  lemma SlotFacts(source: seq<byte>, p: Profile, f: GgufFile, plan: LinkPlan, k: nat)
    requires Linking(source, p, f, plan) && k < |plan.planned|
    ensures k < |plan.order| && plan.planned[k].source == plan.order[k]
    ensures SlotInside(source, p, f, plan.planned[k])
    ensures f.header.alignment > 0 && plan.planned[k].rel % f.header.alignment == 0
    ensures SourcesOk(f, plan.planned) && plan.planned[k].rel >= RunningAt(f, plan.planned, k)
  {
    hide ParseFile, TensorBytes, Position;
    assert PlannedOk(f, |source|, plan.order, plan.planned, k);
  }

  /** A slot's content has the planned size. */
  lemma ContentSize(source: seq<byte>, p: Profile, f: GgufFile, plan: LinkPlan, k: nat)
    requires Linking(source, p, f, plan) && k < |plan.planned|
    requires SlotInside(source, p, f, plan.planned[k])
    ensures |Content(source, p, f, plan.planned[k])| == SlotBytes(f, plan.planned[k])
  {
    hide ParseFile, TensorBytes, Position, NewData, EntryFits;
    var q := plan.planned[k];
    var v := f.tensors[q.source];
    assert PlannedOk(f, |source|, plan.order, plan.planned, k);
    if q.transform {
      ViewData(source, f, q.source);
      NewDataLength(p, v, q.bytes);
    }
  }

  lemma ViewData(source: seq<byte>, f: GgufFile, i: nat)
    requires ParseFile(source) == Some(f) && i < |f.tensors|
    ensures var v := f.tensors[i];
      && TensorBytes(v.shape, v.raw) == Some(|v.data|) && v.byteLen == |v.data|
      && PrimaryEnd(v) <= |source| && v.data == source[v.offset..PrimaryEnd(v)]
      && v.scale == (if v.raw == I2S && PrimaryEnd(v) + SCALE_BLOCK <= |source|
                     then Some(source[PrimaryEnd(v)..PrimaryEnd(v) + SCALE_BLOCK]) else None)
  {
    hide ParseFile, TensorBytes;
    ParsedViews(source, f, i);
  }

  // ---------------------------------------------------------------------------
  // The output
  // ---------------------------------------------------------------------------

  /** Every slot has content of the planned size, at an offset no earlier than the one before ends. */
  ghost predicate Ready(source: seq<byte>, p: Profile, f: GgufFile, planned: seq<Planned>) {
    && SourcesOk(f, planned)
    && forall k: nat :: k < |planned| ==> SlotReady(source, p, f, planned, k)
  }

  ghost predicate SlotReady(source: seq<byte>, p: Profile, f: GgufFile, planned: seq<Planned>, k: nat)
    requires k < |planned| && SourcesOk(f, planned)
  {
    && SlotInside(source, p, f, planned[k])
    && planned[k].rel >= RunningAt(f, planned, k)
    && |Content(source, p, f, planned[k])| == SlotBytes(f, planned[k])
  }

  lemma PlanIsReady(source: seq<byte>, p: Profile, f: GgufFile, plan: LinkPlan)
    requires Linking(source, p, f, plan)
    ensures Ready(source, p, f, plan.planned)
  {
    hide Linking, PlannedOk, Content, SlotBytes, RunningAt, ValidEmbedding;
    PlanSources(source, p, f, plan);
    forall k: nat | k < |plan.planned| ensures SlotReady(source, p, f, plan.planned, k) {
      SlotFacts(source, p, f, plan, k);
      ContentSize(source, p, f, plan, k);
    }
  }

  lemma PlanSources(source: seq<byte>, p: Profile, f: GgufFile, plan: LinkPlan)
    requires Linking(source, p, f, plan)
    ensures SourcesOk(f, plan.planned) && |plan.planned| == |f.tensors| && IsOrder(f.tensors, plan.order, |f.tensors|)
  {
  }

  /** The output after `n` slots. */
  ghost function Written(source: seq<byte>, p: Profile, f: GgufFile, header: seq<byte>, planned: seq<Planned>, n: nat): (r: seq<byte>)
    requires n <= |planned| && Ready(source, p, f, planned) && |header| == f.header.dataStart
    ensures |r| == f.header.dataStart + RunningAt(f, planned, n) && header <= r
  {
    if n == 0 then header else
    assert SlotReady(source, p, f, planned, n - 1);
    GgufPrint.PadTo(Written(source, p, f, header, planned, n - 1), f.header.dataStart + planned[n - 1].rel)
    + Content(source, p, f, planned[n - 1])
  }

  /** The header with every planned tensor's fields written in. */
  ghost predicate HeaderDone(source: seq<byte>, f: GgufFile, planned: seq<Planned>, header: seq<byte>, n: nat)
    requires n <= |planned| && SourcesOk(f, planned) && |f.tensors| == |f.header.entries|
  {
    && |header| == f.header.dataStart && SameButFields(source, header, f.header)
    && forall k: nat :: k < n ==> SlotPatched(f, planned, header, k)
  }

  predicate SlotPatched(f: GgufFile, planned: seq<Planned>, header: seq<byte>, k: nat)
    requires k < |planned| && SourcesOk(f, planned) && |f.tensors| == |f.header.entries|
  {
    FieldsAt(header, f.header.entries[planned[k].source], Fields(planned[k].raw, planned[k].rel))
  }

  lemma PatchedNext(source: seq<byte>, p: Profile, f: GgufFile, plan: LinkPlan, header: seq<byte>, patched: seq<byte>, k: nat)
    requires Linking(source, p, f, plan) && SourcesOk(f, plan.planned) && |f.tensors| == |f.header.entries|
    requires k < |plan.planned| && HeaderDone(source, f, plan.planned, header, k) && InOrder(f.header.entries, f.header.metaEnd)
    requires var e := f.header.entries[plan.planned[k].source];
      SameOutside(header, patched, e.dtypeAt, e.End()) && FieldsAt(patched, e, Fields(plan.planned[k].raw, plan.planned[k].rel))
    ensures HeaderDone(source, f, plan.planned, patched, k + 1)
  {
    hide Linking, SameButFields, FieldsAt, InOrder;
    var i := plan.planned[k].source;
    OutsideKept(source, header, patched, f.header, i);
    forall j: nat | j < k + 1 ensures SlotPatched(f, plan.planned, patched, j) {
      if j < k {
        assert SlotPatched(f, plan.planned, header, j);
        SourcesDiffer(source, p, f, plan, j, k);
        OtherFieldsKept(header, patched, f.header, i, plan.planned[j].source, Fields(plan.planned[j].raw, plan.planned[j].rel));
      }
    }
  }

  method PatchSlot(source: seq<byte>, p: Profile, f: GgufFile, plan: LinkPlan, header: seq<byte>, k: nat) returns (patched: seq<byte>)
    requires Linking(source, p, f, plan) && SourcesOk(f, plan.planned) && |f.tensors| == |f.header.entries|
    requires k < |plan.planned| && |header| == f.header.dataStart && HeaderDone(source, f, plan.planned, header, k)
    ensures |patched| == f.header.dataStart && HeaderDone(source, f, plan.planned, patched, k + 1)
  {
    hide Linking, HeaderDone, SameOutside, FieldsAt, InOrder, ParseFile;
    LinkingParts(source, p, f, plan);
    var q := plan.planned[k];
    EntryWithin(source, f, q.source);
    patched := PatchEntry(header, f.header.entries[q.source], Fields(q.raw, q.rel));
    PatchedNext(source, p, f, plan, header, patched, k);
    SameLength(header, patched, f.header.entries[q.source]);
  }

  /** The directory is patched in the plan's order; no patch touches another entry's fields. */
  method PatchedHeader(source: seq<byte>, p: Profile, f: GgufFile, plan: LinkPlan) returns (header: seq<byte>)
    requires Linking(source, p, f, plan)
    ensures SourcesOk(f, plan.planned) && |f.tensors| == |f.header.entries|
    ensures HeaderDone(source, f, plan.planned, header, |plan.planned|)
  {
    hide Linking, HeaderDone, InOrder, ParseFile, ParseHeader, SameButFields;
    LinkingHeader(source, p, f, plan);
    header := source[..f.header.dataStart];
    HeaderLoaded(source, f, plan.planned, header);
    var k := 0;
    while k < |plan.planned|
      invariant 0 <= k <= |plan.planned| && |header| == f.header.dataStart && HeaderDone(source, f, plan.planned, header, k)
    {
      header := PatchSlot(source, p, f, plan, header, k);
      k := k + 1;
    }
  }

  lemma SameLength(before: seq<byte>, after: seq<byte>, e: Entry)
    requires SameOutside(before, after, e.dtypeAt, e.End())
    ensures |after| == |before|
  {
  }

  lemma HeaderLoaded(source: seq<byte>, f: GgufFile, planned: seq<Planned>, header: seq<byte>)
    requires SourcesOk(f, planned) && |f.tensors| == |f.header.entries|
    requires |header| == f.header.dataStart && SameButFields(source, header, f.header)
    ensures HeaderDone(source, f, planned, header, 0)
  {
  }

  lemma SourcesDiffer(source: seq<byte>, p: Profile, f: GgufFile, plan: LinkPlan, j: nat, k: nat)
    requires Linking(source, p, f, plan) && j < k < |plan.planned|
    ensures plan.planned[j].source != plan.planned[k].source
  {
    hide ParseFile, TensorBytes, Position, Accepted, RowSized;
    assert PlannedOk(f, |source|, plan.order, plan.planned, j) && PlannedOk(f, |source|, plan.order, plan.planned, k);
    assert f.tensors[plan.order[j]].offset < f.tensors[plan.order[k]].offset;
  }

  lemma EntryWithin(source: seq<byte>, f: GgufFile, i: nat)
    requires ParseFile(source) == Some(f) && i < |f.header.entries|
    ensures f.header.entries[i].End() <= f.header.dataStart && InOrder(f.header.entries, f.header.metaEnd)
  {
    hide ParseFile, ParseHeader, InOrder, StartOf, WellPlaced;
    HeaderPositive(source, f);
    HeaderInOrder(source, f.header);
    Placed(f.header, |source|);
    NextStart(f.header.entries, f.header.metaEnd, i);
    StartsGrow(f.header.entries, f.header.metaEnd, i + 1, |f.header.entries|);
  }

  lemma HeaderInOrder(source: seq<byte>, h: Header)
    requires ParseHeader(source) == Some(h)
    ensures InOrder(h.entries, h.metaEnd)
  {
    hide ParseHeader, ReadEntries, InOrder;
    HeaderHasParts(source, h);
    var kvCount: nat :| Parts(source, h, |h.entries|, kvCount);
    EntriesInOrder(source, h.metaEnd, |h.entries|);
  }

  lemma LinkingHeader(source: seq<byte>, p: Profile, f: GgufFile, plan: LinkPlan)
    requires Linking(source, p, f, plan)
    ensures ParseFile(source) == Some(f) && ParseHeader(source) == Some(f.header)
    ensures |f.tensors| == |f.header.entries| && SourcesOk(f, plan.planned)
    ensures f.header.dataStart <= |source| && InOrder(f.header.entries, f.header.metaEnd)
    ensures SameButFields(source, source[..f.header.dataStart], f.header)
  {
    hide ParseFile, ParseHeader, InOrder, SameButFields, Linking, WellPlaced;
    PlanSources(source, p, f, plan);
    LinkingParts(source, p, f, plan);
    HeaderPositive(source, f);
    HeaderInOrder(source, f.header);
    HasTensors(p, f);
    Placed(f.header, |source|);
    CutIsSame(source, f);
  }

  lemma LinkingParts(source: seq<byte>, p: Profile, f: GgufFile, plan: LinkPlan)
    requires Linking(source, p, f, plan)
    ensures ParseFile(source) == Some(f) && Accepted(p, f) && RowSized(p.quantise) && IsPlan(f, |source|, plan)
  {
  }

  lemma Placed(h: Header, fileLen: nat)
    requires WellPlaced(h, fileLen)
    ensures h.entries != [] ==> h.dataStart <= fileLen
    ensures h.metaEnd <= StartOf(h.entries, h.metaEnd, |h.entries|) <= h.dataStart
  {
  }

  lemma CutIsSame(source: seq<byte>, f: GgufFile)
    requires ParseFile(source) == Some(f) && f.header.dataStart <= |source|
    ensures SameButFields(source, source[..f.header.dataStart], f.header)
  {
    hide ParseFile, ParseHeader, StartOf, InOrder, Agree, WellPlaced;
    var h, header := f.header, source[..f.header.dataStart];
    HeaderPositive(source, f);
    HeaderInOrder(source, h);
    Placed(h, |source|);
    forall i: nat | i < |h.entries|
      ensures Agree(source, header, StartOf(h.entries, h.metaEnd, i), h.entries[i].dtypeAt)
    {
      EntryWithin(source, f, i);
      EntryStarts(h, i);
      CutAgrees(source, h.dataStart, StartOf(h.entries, h.metaEnd, i), h.entries[i].dtypeAt);
    }
    CutAgrees(source, h.dataStart, 0, h.metaEnd);
    CutAgrees(source, h.dataStart, StartOf(h.entries, h.metaEnd, |h.entries|), h.dataStart);
  }

  lemma EntryStarts(h: Header, i: nat)
    requires i < |h.entries| && InOrder(h.entries, h.metaEnd)
    ensures StartOf(h.entries, h.metaEnd, i) <= h.entries[i].dtypeAt
  {
    hide StartOf;
  }

  lemma HasTensors(p: Profile, f: GgufFile)
    requires Accepted(p, f)
    ensures f.tensors != []
  {
    hide TensorBytes;
  }

  lemma CutAgrees(source: seq<byte>, cut: nat, from: nat, to: nat)
    requires from <= to <= cut <= |source|
    ensures Agree(source, source[..cut], from, to)
  {
  }

  /** Padding, then the slot: copied whole, or quantised rows and what followed the old data. */
  method WriteSlot(source: seq<byte>, p: Profile, f: GgufFile, q: Planned, output: seq<byte>) returns (longer: seq<byte>, position: nat)
    requires SlotInside(source, p, f, q) && |output| <= f.header.dataStart + q.rel
    requires |Content(source, p, f, q)| == SlotBytes(f, q)
    ensures longer == GgufPrint.PadTo(output, f.header.dataStart + q.rel) + Content(source, p, f, q)
    ensures position == f.header.dataStart + q.rel + SlotBytes(f, q) == |longer|
  {
    var v := f.tensors[q.source];
    longer := GgufPrint.PadTo(output, f.header.dataStart + q.rel);
    position := f.header.dataStart + q.rel;
    if q.transform {
      var rows := WriteQ6K(p.quantise, v.data, 2 * v.shape[0]);
      var suffix := source[PrimaryEnd(v)..q.slotEnd];
      assert longer + rows + suffix == longer + (rows + suffix);
      longer := longer + rows;
      position := position + q.bytes;
      longer := longer + suffix;
      position := position + |suffix|;
    } else {
      var slot := source[v.offset..q.slotEnd];
      longer := longer + slot;
      position := position + |slot|;
    }
  }

  /** The bytes of the artifact: their number is always the planned one, so writing never fails. */
  method WriteArtifact(source: seq<byte>, p: Profile, f: GgufFile, plan: LinkPlan) returns (r: Option<seq<byte>>, ghost header: seq<byte>)
    requires Linking(source, p, f, plan)
    ensures SourcesOk(f, plan.planned) && |f.tensors| == |f.header.entries| && Ready(source, p, f, plan.planned)
    ensures |header| == f.header.dataStart && HeaderDone(source, f, plan.planned, header, |plan.planned|)
    ensures r.Some? && |r.value| == plan.outputBytes
    ensures r.value == Written(source, p, f, header, plan.planned, |plan.planned|)
  {
    hide Linking, HeaderDone, Ready, RunningAt, Content, SlotBytes, SlotInside, Written;
    PlanIsReady(source, p, f, plan);
    var output := PatchedHeader(source, p, f, plan);
    header := output;
    HeaderLength(source, f, plan, header);
    NothingWritten(source, p, f, header, plan.planned);
    var position := |output|;
    var k := 0;
    while k < |plan.planned|
      invariant 0 <= k <= |plan.planned|
      invariant output == Written(source, p, f, header, plan.planned, k) && position == |output|
    {
      WrittenStep(source, p, f, header, plan.planned, k);
      output, position := WriteSlot(source, p, f, plan.planned[k], output);
      k := k + 1;
    }
    OutputSize(source, p, f, plan);
    if position != plan.outputBytes { return None, header; }
    return Some(output), header;
  }

  lemma NothingWritten(source: seq<byte>, p: Profile, f: GgufFile, header: seq<byte>, planned: seq<Planned>)
    requires Ready(source, p, f, planned) && |header| == f.header.dataStart
    ensures Written(source, p, f, header, planned, 0) == header
  {
  }

  lemma HeaderLength(source: seq<byte>, f: GgufFile, plan: LinkPlan, header: seq<byte>)
    requires SourcesOk(f, plan.planned) && |f.tensors| == |f.header.entries|
    requires HeaderDone(source, f, plan.planned, header, |plan.planned|)
    ensures |header| == f.header.dataStart
  {
  }

  lemma OutputSize(source: seq<byte>, p: Profile, f: GgufFile, plan: LinkPlan)
    requires Linking(source, p, f, plan)
    ensures SourcesOk(f, plan.planned) && plan.outputBytes == f.header.dataStart + RunningAt(f, plan.planned, |plan.planned|)
  {
  }

  /** One more slot of the output. */
  lemma WrittenStep(source: seq<byte>, p: Profile, f: GgufFile, header: seq<byte>, planned: seq<Planned>, k: nat)
    requires Ready(source, p, f, planned) && k < |planned| && |header| == f.header.dataStart
    ensures SlotInside(source, p, f, planned[k])
    ensures |Content(source, p, f, planned[k])| == SlotBytes(f, planned[k])
    ensures |Written(source, p, f, header, planned, k)| <= f.header.dataStart + planned[k].rel
    ensures Written(source, p, f, header, planned, k + 1)
         == GgufPrint.PadTo(Written(source, p, f, header, planned, k), f.header.dataStart + planned[k].rel)
          + Content(source, p, f, planned[k])
  {
    hide SlotInside, Content, SlotBytes;
    assert SlotReady(source, p, f, planned, k);
  }

  // ---------------------------------------------------------------------------
  // Where the slots are
  // ---------------------------------------------------------------------------

  /** Later slots start no earlier than this one ends, and the output holds them all. */
  lemma {:induction false} SlotsGrow(source: seq<byte>, p: Profile, f: GgufFile, planned: seq<Planned>, j: nat, k: nat)
    requires Ready(source, p, f, planned) && j < k <= |planned|
    ensures planned[j].rel + SlotBytes(f, planned[j]) <= RunningAt(f, planned, k)
    ensures k < |planned| ==> planned[j].rel + SlotBytes(f, planned[j]) <= planned[k].rel
  {
    hide SlotInside, Content, SlotBytes;
    if k < |planned| { assert SlotReady(source, p, f, planned, k); }
    if j < k - 1 {
      SlotsGrow(source, p, f, planned, j, k - 1);
      assert SlotReady(source, p, f, planned, k - 1);
    }
  }

  lemma {:induction false} SlotStands(source: seq<byte>, p: Profile, f: GgufFile, header: seq<byte>, planned: seq<Planned>, n: nat, k: nat)
    requires Ready(source, p, f, planned) && |header| == f.header.dataStart && k < n <= |planned|
    ensures SlotInside(source, p, f, planned[k])
    ensures StandsAt(Written(source, p, f, header, planned, n), f.header.dataStart + planned[k].rel, Content(source, p, f, planned[k]))
  {
    hide SlotInside, Content, SlotBytes, Ready, RunningAt, Written;
    WrittenStep(source, p, f, header, planned, n - 1);
    var before := Written(source, p, f, header, planned, n - 1);
    var at := f.header.dataStart + planned[n - 1].rel;
    if k < n - 1 {
      SlotStands(source, p, f, header, planned, n - 1, k);
      var from := f.header.dataStart + planned[k].rel;
      KeptByPadding(before, at, Content(source, p, f, planned[n - 1]), from, Content(source, p, f, planned[k]));
    }
  }

  lemma KeptByPadding(before: seq<byte>, at: nat, more: seq<byte>, from: nat, s: seq<byte>)
    requires |before| <= at && StandsAt(before, from, s)
    ensures StandsAt(GgufPrint.PadTo(before, at) + more, from, s)
  {
    var padded := GgufPrint.PadTo(before, at);
    assert (padded + more)[from..from + |s|] == padded[..|before|][from..from + |s|];
  }

  /** Every slot but the last takes some bytes. */
  lemma SlotNotEmpty(source: seq<byte>, p: Profile, f: GgufFile, plan: LinkPlan, k: nat)
    requires Linking(source, p, f, plan) && k + 1 < |plan.planned|
    ensures plan.planned[k].source < |f.tensors| && SlotBytes(f, plan.planned[k]) > 0
  {
    hide ParseFile, TensorBytes, Position, EntryFits;
    SlotFacts(source, p, f, plan, k);
    var q := plan.planned[k];
    var v := f.tensors[q.source];
    assert PlannedOk(f, |source|, plan.order, plan.planned, k);
    assert v.offset < f.tensors[plan.order[k + 1]].offset;
    if q.transform && v.byteLen > 0 {
      ViewData(source, f, q.source);
      assert v.shape == [v.shape[0], v.shape[1]];
      RowsNotEmpty(v.shape[0], v.shape[1], v.byteLen, q.bytes);
    }
  }

  lemma RowsNotEmpty(w: nat, rows: nat, half: nat, six: nat)
    requires w > 0 && TensorBytes([w, rows], F16) == Some(half) && TensorBytes([w, rows], Q6K) == Some(six) && half > 0
    ensures six > 0
  {
    hide TensorBytes, Elements;
    ElementsKnown([w, rows], half);
    HalfRows(w, rows, half);
    SixBitRows(w, rows, six);
    NoRows(w, rows);
    assert w / 256 >= 1;
    assert w / 256 * 210 * rows >= 1 * rows by { Scale(1, w / 256 * 210, rows); }
  }

  lemma NoRows(w: nat, rows: nat)
    ensures rows == 0 ==> 2 * w * rows == 0
  {
  }

  lemma Scale(a: nat, b: nat, k: nat)
    requires a <= b
    ensures a * k <= b * k
  {
    assert (b - a) * k >= 0;
  }

  // ---------------------------------------------------------------------------
  // What the output parses to
  // ---------------------------------------------------------------------------

  /** The slot of tensor `i`. */
  ghost function PlanOf(f: GgufFile, plan: LinkPlan, i: nat): (q: Planned)
    requires IsOrder(f.tensors, plan.order, |f.tensors|) && |plan.planned| == |f.tensors| && i < |f.tensors|
  {
    plan.planned[Slot(plan.order, i)]
  }

  /** The fields the plan gives the first `n` entries. */
  ghost function NewFields(f: GgufFile, plan: LinkPlan, n: nat): (r: seq<Fields>)
    requires IsOrder(f.tensors, plan.order, |f.tensors|) && |plan.planned| == |f.tensors| && n <= |f.tensors|
    ensures |r| == n && forall i: nat :: i < n ==> r[i] == Fields(PlanOf(f, plan, i).raw, PlanOf(f, plan, i).rel)
  {
    if n == 0 then [] else NewFields(f, plan, n - 1) + [Fields(PlanOf(f, plan, n - 1).raw, PlanOf(f, plan, n - 1).rel)]
  }

  lemma SlotOf(source: seq<byte>, p: Profile, f: GgufFile, plan: LinkPlan, i: nat)
    requires Linking(source, p, f, plan) && i < |f.tensors|
    ensures IsOrder(f.tensors, plan.order, |f.tensors|) && |plan.planned| == |f.tensors|
    ensures Slot(plan.order, i) < |plan.planned| && PlanOf(f, plan, i).source == i
    ensures PlannedOk(f, |source|, plan.order, plan.planned, Slot(plan.order, i))
  {
    hide ParseFile, Position, Accepted, RowSized;
    assert PlannedOk(f, |source|, plan.order, plan.planned, Slot(plan.order, i));
    hide PlannedOk;
    SlotFacts(source, p, f, plan, Slot(plan.order, i));
  }

  lemma FieldsInRange(source: seq<byte>, p: Profile, f: GgufFile, plan: LinkPlan, i: nat)
    requires Linking(source, p, f, plan) && i < |f.tensors| && IsOrder(f.tensors, plan.order, |f.tensors|) && |plan.planned| == |f.tensors|
    ensures IsFields(Fields(PlanOf(f, plan, i).raw, PlanOf(f, plan, i).rel))
  {
    hide ParseFile, TensorBytes, Position, Accepted, RowSized;
    SlotOf(source, p, f, plan, i);
    RawInRange(source, f, i);
  }

  lemma RawInRange(source: seq<byte>, f: GgufFile, i: nat)
    requires ParseFile(source) == Some(f) && i < |f.tensors|
    ensures f.tensors[i].raw < 0x1_0000_0000
  {
    hide ParseFile, TensorBytes, ParseHeader, ReadEntries;
    ParsedViews(source, f, i);
    HeaderPositive(source, f);
    HeaderHasParts(source, f.header);
    var kvCount: nat :| Parts(source, f.header, |f.header.entries|, kvCount);
    EntryRaw(source, f.header.metaEnd, |f.header.entries|, i);
  }

  lemma {:induction false} EntryRaw(data: seq<byte>, pos: nat, n: nat, i: nat)
    requires pos <= |data| && ReadEntries(data, pos, n).Some? && i < n
    ensures ReadEntries(data, pos, n).value[i].raw < 0x1_0000_0000
  {
    hide ReadEntry;
    if i < n - 1 {
      EntryRaw(data, pos, n - 1, i);
    } else {
      RawOfEntry(data, EndOf(ReadEntries(data, pos, n - 1).value, pos));
    }
  }

  lemma RawOfEntry(data: seq<byte>, pos: nat)
    requires ReadEntry(data, pos).Some?
    ensures ReadEntry(data, pos).value.raw < 0x1_0000_0000
  {
    hide ReadString, ReadDims;
    var at := ReadEntry(data, pos).value.dtypeAt;
    BelowLimit(data[at..at + 4]);
    Limits();
  }

  lemma AgreeExtends(source: seq<byte>, header: seq<byte>, out: seq<byte>, from: nat, to: nat)
    requires header <= out && Agree(source, header, from, to)
    ensures Agree(source, out, from, to)
  {
    assert out[from..to] == header[from..to];
  }

  lemma SameExtends(source: seq<byte>, header: seq<byte>, out: seq<byte>, h: Header)
    requires header <= out && SameButFields(source, header, h)
    ensures SameButFields(source, out, h)
  {
    hide Agree, StartOf;
    AgreeExtends(source, header, out, 0, h.metaEnd);
    forall i: nat | i < |h.entries|
      ensures Agree(source, out, StartOf(h.entries, h.metaEnd, i), h.entries[i].dtypeAt)
    {
      assert Agree(source, header, StartOf(h.entries, h.metaEnd, i), h.entries[i].dtypeAt);
      AgreeExtends(source, header, out, StartOf(h.entries, h.metaEnd, i), h.entries[i].dtypeAt);
    }
    AgreeExtends(source, header, out, StartOf(h.entries, h.metaEnd, |h.entries|), h.dataStart);
  }

  lemma FieldsExtend(header: seq<byte>, out: seq<byte>, e: Entry, f: Fields)
    requires header <= out && FieldsAt(header, e, f)
    ensures FieldsAt(out, e, f)
  {
    hide ToLE;
    assert out[e.dtypeAt..e.dtypeAt + 4] == header[e.dtypeAt..e.dtypeAt + 4];
    assert out[e.dtypeAt + 4..e.dtypeAt + 4 + 8] == header[e.dtypeAt + 4..e.dtypeAt + 4 + 8];
  }

  /** A finished artifact: its header, and the slots after it. */
  ghost predicate Finished(source: seq<byte>, p: Profile, f: GgufFile, plan: LinkPlan, header: seq<byte>, out: seq<byte>) {
    && Linking(source, p, f, plan)
    && SourcesOk(f, plan.planned) && |f.tensors| == |f.header.entries| && Ready(source, p, f, plan.planned)
    && |header| == f.header.dataStart && HeaderDone(source, f, plan.planned, header, |plan.planned|)
    && out == Written(source, p, f, header, plan.planned, |plan.planned|)
  }

  lemma OutputHeader(source: seq<byte>, p: Profile, f: GgufFile, plan: LinkPlan, header: seq<byte>, out: seq<byte>)
    requires Finished(source, p, f, plan, header, out)
    requires IsOrder(f.tensors, plan.order, |f.tensors|) && |plan.planned| == |f.tensors|
    ensures ParseHeader(out) == Some(ChangedHeader(f.header, NewFields(f, plan, |f.tensors|)))
    ensures |out| == plan.outputBytes && f.header.dataStart <= |out|
  {
    hide Linking, ParseHeader, SameButFields, FieldsAt, IsFields, Ready, RunningAt, PlanOf;
    LinkingParts(source, p, f, plan);
    HeaderPositive(source, f);
    OutputSize(source, p, f, plan);
    SameExtends(source, header, out, f.header);
    var fields := NewFields(f, plan, |f.tensors|);
    forall i: nat | i < |fields| ensures IsFields(fields[i]) && FieldsAt(out, f.header.entries[i], fields[i]) {
      FieldsInRange(source, p, f, plan, i);
      EntryPatched(source, p, f, plan, header, i);
      FieldsExtend(header, out, f.header.entries[i], fields[i]);
    }
    HeaderChanged(source, out, f.header, fields);
  }

  lemma EntryPatched(source: seq<byte>, p: Profile, f: GgufFile, plan: LinkPlan, header: seq<byte>, i: nat)
    requires Linking(source, p, f, plan) && SourcesOk(f, plan.planned) && |f.tensors| == |f.header.entries|
    requires IsOrder(f.tensors, plan.order, |f.tensors|) && |plan.planned| == |f.tensors| && i < |f.tensors|
    requires HeaderDone(source, f, plan.planned, header, |plan.planned|)
    ensures FieldsAt(header, f.header.entries[i], Fields(PlanOf(f, plan, i).raw, PlanOf(f, plan, i).rel))
  {
    hide Linking, SameButFields, FieldsAt, PlannedOk, IsOrder;
    SlotOf(source, p, f, plan, i);
    assert SlotPatched(f, plan.planned, header, Slot(plan.order, i));
  }

  /** Tensor `i`'s new footprint fits its slot. */
  lemma FootprintFits(source: seq<byte>, p: Profile, f: GgufFile, plan: LinkPlan, i: nat)
    requires Linking(source, p, f, plan) && i < |f.tensors| && |f.tensors| == |f.header.entries|
    requires IsOrder(f.tensors, plan.order, |f.tensors|) && |plan.planned| == |f.tensors| && SourcesOk(f, plan.planned)
    ensures var e := Changed(f.header.entries[i], Fields(PlanOf(f, plan, i).raw, PlanOf(f, plan, i).rel));
      TensorBytes(e.shape, e.raw) == Some(PlanOf(f, plan, i).bytes) && Footprint(e) <= SlotBytes(f, PlanOf(f, plan, i))
  {
    hide ParseFile, TensorBytes, Position, Accepted, RowSized;
    SlotOf(source, p, f, plan, i);
    SlotHolds(source, f, plan.order, Slot(plan.order, i));
    ParsedViews(source, f, i);
  }

  lemma OutputFits(source: seq<byte>, p: Profile, f: GgufFile, plan: LinkPlan, header: seq<byte>, out: seq<byte>, i: nat)
    requires Finished(source, p, f, plan, header, out) && i < |f.tensors|
    requires IsOrder(f.tensors, plan.order, |f.tensors|) && |plan.planned| == |f.tensors|
    ensures var h := ChangedHeader(f.header, NewFields(f, plan, |f.tensors|));
      |h.entries| == |f.tensors| && EntryFits(|out|, h.dataStart, h.entries, i)
  {
    hide Linking, HeaderDone, TensorBytes, Ready, RunningAt, SlotBytes, PlanOf, Footprint, IsOrder;
    var fields := NewFields(f, plan, |f.tensors|);
    var h := ChangedHeader(f.header, fields);
    FootprintFits(source, p, f, plan, i);
    ChangedAt(f.header.entries, fields, |fields|, i);
    OutputSize(source, p, f, plan);
    RoomForSlot(source, p, f, plan, i);
    forall j: nat | j < |f.tensors| && j != i
      ensures h.entries[j].rel != h.entries[i].rel
      ensures h.entries[j].rel > h.entries[i].rel ==> h.entries[i].rel + Footprint(h.entries[i]) <= h.entries[j].rel
    {
      ChangedAt(f.header.entries, fields, |fields|, j);
      SlotsApart(source, p, f, plan, i, j);
    }
  }

  lemma RoomForSlot(source: seq<byte>, p: Profile, f: GgufFile, plan: LinkPlan, i: nat)
    requires Linking(source, p, f, plan) && SourcesOk(f, plan.planned) && Ready(source, p, f, plan.planned) && i < |f.tensors|
    requires IsOrder(f.tensors, plan.order, |f.tensors|) && |plan.planned| == |f.tensors|
    ensures PlanOf(f, plan, i).rel + SlotBytes(f, PlanOf(f, plan, i)) <= RunningAt(f, plan.planned, |plan.planned|)
    ensures f.header.dataStart + PlanOf(f, plan, i).rel <= U64_MAX
  {
    hide Linking, Ready, RunningAt, SlotBytes, IsOrder, Position, TensorBytes, AlignUp;
    SlotOf(source, p, f, plan, i);
    SlotsGrow(source, p, f, plan.planned, Slot(plan.order, i), |plan.planned|);
  }

  /** Two tensors' slots do not meet, in the order of their source offsets. */
  lemma SlotsApart(source: seq<byte>, p: Profile, f: GgufFile, plan: LinkPlan, i: nat, j: nat)
    requires Linking(source, p, f, plan) && SourcesOk(f, plan.planned) && Ready(source, p, f, plan.planned)
    requires IsOrder(f.tensors, plan.order, |f.tensors|) && |plan.planned| == |f.tensors|
    requires i < |f.tensors| && j < |f.tensors| && i != j
    ensures var a, b := PlanOf(f, plan, i), PlanOf(f, plan, j);
      if f.tensors[i].offset < f.tensors[j].offset then a.rel < b.rel && a.rel + SlotBytes(f, a) <= b.rel
      else b.rel < a.rel && b.rel + SlotBytes(f, b) <= a.rel
  {
    hide Linking, Ready, RunningAt, SlotBytes, PlannedOk;
    SlotOf(source, p, f, plan, i);
    SlotOf(source, p, f, plan, j);
    var k, l := Slot(plan.order, i), Slot(plan.order, j);
    if k < l {
      SlotsGrow(source, p, f, plan.planned, k, l);
      SlotNotEmpty(source, p, f, plan, k);
    } else {
      SlotsGrow(source, p, f, plan.planned, l, k);
      SlotNotEmpty(source, p, f, plan, l);
    }
  }

  /** The tensor of the output in the place of `v`. */
  predicate Copied(v: View, w: View) {
    w.name == v.name && w.shape == v.shape && w.raw == v.raw && w.byteLen == v.byteLen && w.data == v.data && w.scale == v.scale
  }

  predicate Quantised(p: Profile, v: View, w: View)
    requires ValidEmbedding(p, v)
  {
    && w.name == v.name && w.shape == v.shape && w.raw == Q6K
    && TensorBytes(v.shape, Q6K) == Some(w.byteLen) && w.data == NewData(p, v) && w.scale == None
  }

  lemma CopiedSlot(source: seq<byte>, out: seq<byte>, at: nat, from: nat, mid: nat, end: nat, more: nat)
    requires from <= mid <= end <= |source| && mid + more <= end && StandsAt(out, at, source[from..end])
    ensures StandsAt(out, at, source[from..mid]) && StandsAt(out, at + (mid - from), source[mid..mid + more])
  {
    assert source[from..end] == source[from..mid] + source[mid..end];
    StandsPart(out, at, source[from..mid], source[mid..end]);
    assert source[mid..end] == source[mid..mid + more] + source[mid + more..end];
    StandsPart(out, at + (mid - from), source[mid..mid + more], source[mid + more..end]);
  }

  /** A view of data, and a scale block where there is one, that stand in their places. */
  lemma ViewStands(data: seq<byte>, start: nat, entries: seq<Entry>, i: nat, content: seq<byte>, scale: seq<byte>)
    requires i < |entries| && EntryFits(|data|, start, entries, i)
    requires TensorBytes(entries[i].shape, entries[i].raw) == Some(|content|)
    requires StandsAt(data, start + entries[i].rel, content)
    requires entries[i].raw == I2S ==>
      |scale| == SCALE_BLOCK && StandsAt(data, start + entries[i].rel + |content|, scale)
    ensures ViewOf(data, start, entries, i)
         == View(entries[i].name, entries[i].shape, entries[i].raw, start + entries[i].rel, |content|, content,
                 if entries[i].raw == I2S then Some(scale) else None)
  {
    hide TensorBytes;
  }

  /** The view of tensor `i` in the output, from its slot's bytes. */
  lemma OutputView(source: seq<byte>, p: Profile, f: GgufFile, plan: LinkPlan, out: seq<byte>, h: Header, i: nat, q: Planned)
    requires Linking(source, p, f, plan) && i < |f.tensors| && |f.tensors| == |f.header.entries| == |h.entries|
    requires SlotInside(source, p, f, q) && q.source == i && h.dataStart == f.header.dataStart
    requires StandsAt(out, h.dataStart + q.rel, Content(source, p, f, q))
    requires h.entries[i] == Changed(f.header.entries[i], Fields(q.raw, q.rel))
    requires EntryFits(|out|, h.dataStart, h.entries, i)
    requires q.raw == (if q.transform then Q6K else f.tensors[i].raw)
    requires q.transform ==> TensorBytes(f.tensors[i].shape, Q6K) == Some(q.bytes)
    requires f.tensors[i].offset + SpanOf(f.tensors[i]) <= q.slotEnd
    ensures ViewOf(out, h.dataStart, h.entries, i).offset == f.header.dataStart + q.rel
    ensures !q.transform ==> Copied(f.tensors[i], ViewOf(out, h.dataStart, h.entries, i))
    ensures q.transform ==> Quantised(p, f.tensors[i], ViewOf(out, h.dataStart, h.entries, i))
  {
    hide Linking, TensorBytes, NewData, ParseFile, StandsAt, Accepted, RowSized, IsPlan;
    LinkingParts(source, p, f, plan);
    var v := f.tensors[i];
    ParsedViews(source, f, i);
    ViewData(source, f, i);
    hide ViewOf, EntryFits;
    var at := h.dataStart + q.rel;
    if q.transform {
      NewDataLength(p, v, q.bytes);
      StandsPart(out, at, NewData(p, v), source[PrimaryEnd(v)..q.slotEnd]);
      ViewStands(out, h.dataStart, h.entries, i, NewData(p, v), []);
    } else {
      var more := if v.raw == I2S then SCALE_BLOCK else 0;
      CopiedSlot(source, out, at, v.offset, PrimaryEnd(v), q.slotEnd, more);
      ViewStands(out, h.dataStart, h.entries, i, v.data, source[PrimaryEnd(v)..PrimaryEnd(v) + more]);
    }
  }

  /** Bytes of a view with its scale block. */
  function SpanOf(v: View): nat {
    v.byteLen + (if v.raw == I2S then SCALE_BLOCK else 0)
  }

  // ---------------------------------------------------------------------------
  // Linking preserves the model
  // ---------------------------------------------------------------------------

  /** Same file but for the embedding's representation and the offsets. */
  ghost predicate Preserves(p: Profile, f: GgufFile, g: GgufFile) {
    && g.header.version == f.header.version && g.header.metadata == f.header.metadata
    && g.header.alignment == f.header.alignment && g.header.dataStart == f.header.dataStart
    && |g.tensors| == |f.tensors|
    && Accepted(p, f)
    && forall i: nat :: i < |f.tensors| ==> TensorKept(p, f, g, i)
  }

  /** Tensor `i` is copied, or is the embedding and quantised; its offset is aligned. */
  ghost predicate TensorKept(p: Profile, f: GgufFile, g: GgufFile, i: nat)
    requires i < |f.tensors| == |g.tensors| && Accepted(p, f)
  {
    && (if i == Position(f.tensors, TOKEN_EMBD).value then Quantised(p, f.tensors[i], g.tensors[i])
        else Copied(f.tensors[i], g.tensors[i]))
    && f.header.alignment > 0 && f.header.dataStart <= g.tensors[i].offset
    && (g.tensors[i].offset - f.header.dataStart) % f.header.alignment == 0
  }

  /** The tensors lie in the output in the order they lay in the source. */
  ghost predicate SameOrder(f: GgufFile, g: GgufFile) {
    && |g.tensors| == |f.tensors|
    && forall i: nat, j: nat :: i < |f.tensors| && j < |f.tensors| ==>
         (f.tensors[i].offset < f.tensors[j].offset <==> g.tensors[i].offset < g.tensors[j].offset)
  }

  lemma OutputTensor(source: seq<byte>, p: Profile, f: GgufFile, plan: LinkPlan, header: seq<byte>, out: seq<byte>, g: GgufFile, i: nat)
    requires Finished(source, p, f, plan, header, out) && i < |f.tensors| && |g.tensors| == |f.tensors|
    requires IsOrder(f.tensors, plan.order, |f.tensors|) && |plan.planned| == |f.tensors| && Accepted(p, f)
    requires g.header == ChangedHeader(f.header, NewFields(f, plan, |f.tensors|)) && |g.header.entries| == |f.tensors|
    requires EntryFits(|out|, g.header.dataStart, g.header.entries, i)
    requires g.tensors[i] == ViewOf(out, g.header.dataStart, g.header.entries, i)
    ensures TensorKept(p, f, g, i) && g.tensors[i].offset == f.header.dataStart + PlanOf(f, plan, i).rel
  {
    hide ParseFile, HeaderDone, TensorBytes, Ready, RunningAt, SlotBytes, Content, EntryFits, ViewOf, Written, ValidEmbedding,
         Copied, Quantised, SlotInside, IsOrder, Position, AlignUp;
    SlotOf(source, p, f, plan, i);
    var k, q := Slot(plan.order, i), PlanOf(f, plan, i);
    SlotStands(source, p, f, header, plan.planned, |plan.planned|, k);
    ChangedAt(f.header.entries, NewFields(f, plan, |f.tensors|), |f.tensors|, i);
    SlotHolds(source, f, plan.order, k);
    FootprintOfView(source, f, i);
    SlotFacts(source, p, f, plan, k);
    OutputView(source, p, f, plan, out, g.header, i, q);
  }

  lemma FootprintOfView(source: seq<byte>, f: GgufFile, i: nat)
    requires ParseFile(source) == Some(f) && i < |f.tensors|
    ensures |f.tensors| == |f.header.entries| && TensorBytes(f.header.entries[i].shape, f.header.entries[i].raw).Some?
    ensures Footprint(f.header.entries[i]) == SpanOf(f.tensors[i])
  {
    hide ParseFile, TensorBytes;
    ParsedViews(source, f, i);
  }

  /** A finished artifact parses, to the same model. */
  lemma ArtifactParses(source: seq<byte>, p: Profile, f: GgufFile, plan: LinkPlan, header: seq<byte>, out: seq<byte>)
    requires Finished(source, p, f, plan, header, out)
    ensures ParseFile(out).Some? && Preserves(p, f, ParseFile(out).value) && SameOrder(f, ParseFile(out).value)
  {
    hide Finished, ParseHeader, EntryFits, ViewOf, TensorKept, Linking, Accepted, IsOrder, NewFields, PlanOf, SlotBytes, Ready;
    FinishedParts(source, p, f, plan, header, out);
    LinkingParts(source, p, f, plan);
    PlanSources(source, p, f, plan);
    OutputHeader(source, p, f, plan, header, out);
    var n := |f.tensors|;
    var h := ChangedHeader(f.header, NewFields(f, plan, n));
    forall i: nat | i < n ensures EntryFits(|out|, h.dataStart, h.entries, i) {
      OutputFits(source, p, f, plan, header, out, i);
    }
    assert FirstFit(|out|, h, |h.entries|);
    var g := ParseFile(out).value;
    forall i: nat | i < n
      ensures TensorKept(p, f, g, i) && g.tensors[i].offset == f.header.dataStart + PlanOf(f, plan, i).rel
    {
      ViewsAt(out, h, |h.entries|, i);
      OutputTensor(source, p, f, plan, header, out, g, i);
    }
    forall i: nat, j: nat | i < n && j < n
      ensures f.tensors[i].offset < f.tensors[j].offset <==> g.tensors[i].offset < g.tensors[j].offset
    {
      if i != j { SlotsApart(source, p, f, plan, i, j); }
    }
  }

  lemma FinishedParts(source: seq<byte>, p: Profile, f: GgufFile, plan: LinkPlan, header: seq<byte>, out: seq<byte>)
    requires Finished(source, p, f, plan, header, out)
    ensures Linking(source, p, f, plan) && SourcesOk(f, plan.planned) && |f.tensors| == |f.header.entries|
    ensures Ready(source, p, f, plan.planned)
  {
  }

  // ---------------------------------------------------------------------------
  // When linking succeeds
  // ---------------------------------------------------------------------------

  /** The embedding in six bits is no longer than in sixteen. */
  lemma SixBitsAreFewer(p: Profile, v: View)
    requires ValidEmbedding(p, v) && TensorBytes(v.shape, F16).Some?
    ensures TensorBytes(v.shape, Q6K).value <= TensorBytes(v.shape, F16).value
  {
    hide TensorBytes, Elements;
    var w, rows := v.shape[0], v.shape[1];
    var half, six := TensorBytes(v.shape, F16).value, TensorBytes(v.shape, Q6K).value;
    assert v.shape == [w, rows];
    ElementsKnown(v.shape, half);
    HalfRows(w, rows, half);
    SixBitRows(w, rows, six);
    assert w / 256 * 210 <= 2 * w;
    Scale(w / 256 * 210, 2 * w, rows);
  }

  /** Every tensor's offset in the data section is a multiple of the alignment. */
  predicate AlignedSource(f: GgufFile) {
    && f.header.alignment > 0
    && forall i :: 0 <= i < |f.tensors| ==> (f.tensors[i].offset - f.header.dataStart) % f.header.alignment == 0
  }

  /** Rounding up does not pass a multiple. */
  lemma NotPastMultiple(x: int, y: int, a: nat)
    requires a > 0 && x <= y && y % a == 0
    ensures Aligned(x, a) <= y
  {
    if x % a != 0 {
      var q, m := x / a, y / a;
      assert a * q < x < a * q + a && x <= a * m == y;
      MultiplesApart(q, m, a);
      assert a * q + (a - x % a) + x % a == a * q + a;
    }
  }

  lemma MultiplesApart(q: int, m: int, a: nat)
    requires a * q < a * m
    ensures a * q + a <= a * m
  {
    assert a * m - a * q == a * (m - q);
    AtLeastOnce(m - q, a);
  }

  /** Slot by slot, no tensor of an aligned source moves up. */
  lemma {:induction false} NothingMovesUp(source: seq<byte>, p: Profile, f: GgufFile, order: seq<nat>, k: nat)
    requires ParseFile(source) == Some(f) && Accepted(p, f) && AlignedSource(f)
    requires IsOrder(f.tensors, order, |f.tensors|) && k < |order|
    ensures f.header.dataStart + Aligned(SizeTo(f, |source|, order, k), f.header.alignment) <= f.tensors[order[k]].offset
    ensures f.header.dataStart + SizeTo(f, |source|, order, k + 1) <= SlotEnd(f, |source|, order, k)
  {
    hide ParseFile, Accepted, IsOrder, Aligned, NewBytes;
    NoSize(f, |source|, order);
    OffsetInSection(source, f, order[k]);
    if k > 0 {
      NothingMovesUp(source, p, f, order, k - 1);
    }
    NotPastMultiple(SizeTo(f, |source|, order, k), f.tensors[order[k]].offset - f.header.dataStart, f.header.alignment);
    NoMoreBytes(source, p, f, order[k]);
  }

  lemma OffsetInSection(source: seq<byte>, f: GgufFile, i: nat)
    requires ParseFile(source) == Some(f) && i < |f.tensors|
    ensures f.header.dataStart <= f.tensors[i].offset
  {
    hide ParseFile, TensorBytes;
    ParsedViews(source, f, i);
  }

  lemma NoMoreBytes(source: seq<byte>, p: Profile, f: GgufFile, i: nat)
    requires ParseFile(source) == Some(f) && Accepted(p, f) && i < |f.tensors|
    ensures NewBytes(f, i) <= f.tensors[i].byteLen
  {
    hide ParseFile, TensorBytes;
    ParsedViews(source, f, i);
    if Position(f.tensors, TOKEN_EMBD) == Some(i) {
      SixBitsAreFewer(p, f.tensors[i]);
    }
  }

  /** Every set of distinct offsets has an order. */
  lemma {:induction false} OrderExists(ts: seq<View>, n: nat) returns (order: seq<nat>)
    requires n <= |ts| && DistinctOffsets(ts)
    ensures IsOrder(ts, order, n)
  {
    if n == 0 {
      order := [];
    } else {
      var shorter := OrderExists(ts, n - 1);
      var at := Place(ts, shorter, ts[n - 1].offset, 0);
      order := shorter[..at] + [n - 1] + shorter[at..];
      forall k | at <= k < n - 1 ensures ts[n - 1].offset < ts[shorter[k]].offset {
        AboveHere(ts, shorter, n - 1, at, k);
      }
      Inserted(ts, shorter, n - 1, at, order);
    }
  }

  /** The first place from `at` on whose tensor does not lie before `offset`. */
  function Place(ts: seq<View>, order: seq<nat>, offset: nat, at: nat): (r: nat)
    requires at <= |order| && forall k :: 0 <= k < |order| ==> order[k] < |ts|
    ensures at <= r <= |order| && forall k :: at <= k < r ==> ts[order[k]].offset < offset
    ensures r < |order| ==> ts[order[r]].offset >= offset
    decreases |order| - at
  {
    if at == |order| || ts[order[at]].offset >= offset then at else Place(ts, order, offset, at + 1)
  }

  /** An accepted source with aligned tensor offsets can always be laid out. */
  lemma AlignedSourcesLink(source: seq<byte>, p: Profile, f: GgufFile)
    requires ParseFile(source) == Some(f) && Accepted(p, f) && AlignedSource(f) && |source| <= U64_MAX
    ensures Representable(f, |source|)
  {
    hide ParseFile, Accepted, SizeTo, IsOrder, AlignedSource;
    ParsedOffsets(source, f);
    HeaderPositive(source, f);
    AcceptedHasEmbedding(p, f);
    var order := OrderExists(f.tensors, |f.tensors|);
    OrderSize(f, order);
    NothingMovesUp(source, p, f, order, |order| - 1);
    NoSize(f, |source|, order);
    IsRepresentable(f, |source|, order);
  }

  /** Slot by slot, no tensor of any source moves up by more than an alignment a slot. */
  lemma {:induction false} MovesUpLittle(source: seq<byte>, p: Profile, f: GgufFile, order: seq<nat>, k: nat)
    requires ParseFile(source) == Some(f) && Accepted(p, f) && f.header.alignment > 0
    requires IsOrder(f.tensors, order, |f.tensors|) && k < |order|
    ensures f.header.dataStart + SizeTo(f, |source|, order, k + 1) <= SlotEnd(f, |source|, order, k) + k * f.header.alignment
  {
    hide ParseFile, Accepted, IsOrder, Aligned, NewBytes;
    NoSize(f, |source|, order);
    OffsetInSection(source, f, order[k]);
    NoMoreBytes(source, p, f, order[k]);
    var a, before := f.header.alignment, SizeTo(f, |source|, order, k);
    AlignedIsNear(before, a);
    if k > 0 {
      MovesUpLittle(source, p, f, order, k - 1);
      assert k * a == (k - 1) * a + a;
    }
  }

  lemma AlignedIsNear(offset: int, alignment: nat)
    requires alignment > 0
    ensures Aligned(offset, alignment) <= offset + alignment && (offset == 0 ==> Aligned(offset, alignment) == 0)
  {
  }

  /** An accepted source can be laid out whenever 64 bits hold its length and an alignment for every tensor but one. */
  lemma ShortSourcesLink(source: seq<byte>, p: Profile, f: GgufFile)
    requires ParseFile(source) == Some(f) && Accepted(p, f)
    requires |source| + (|f.tensors| - 1) * f.header.alignment <= U64_MAX
    ensures Representable(f, |source|)
  {
    hide ParseFile, Accepted, SizeTo, IsOrder, Representable, WellPlaced, ParseHeader, InRange;
    ParsedOffsets(source, f);
    HeaderPositive(source, f);
    HasTensors(p, f);
    var order := OrderExists(f.tensors, |f.tensors|);
    OrderSize(f, order);
    assert (|f.tensors| - 1) * f.header.alignment == (|order| - 1) * f.header.alignment;
    MovesUpLittle(source, p, f, order, |order| - 1);
    NoSize(f, |source|, order);
    IsRepresentable(f, |source|, order);
  }

  /** The embedding of `g` holds, row for row, the quantised embedding of `f`. */
  ghost predicate EmbeddingRows(p: Profile, f: GgufFile, g: GgufFile) {
    && |g.tensors| == |f.tensors| && Position(f.tensors, TOKEN_EMBD).Some?
    && var i := Position(f.tensors, TOKEN_EMBD).value;
       |f.tensors[i].shape| == 2
       && RowsQuantised(p, f.tensors[i].data, g.tensors[i].data, f.tensors[i].shape[0], f.tensors[i].shape[1])
  }

  lemma EmbeddingIsQuantised(source: seq<byte>, p: Profile, f: GgufFile, g: GgufFile)
    requires ParseFile(source) == Some(f) && Preserves(p, f, g) && RowSized(p.quantise)
    ensures EmbeddingRows(p, f, g)
  {
    hide ParseFile, RowsQuantised, NewData, Position, TensorBytes, Copied, RowSized;
    var i := Position(f.tensors, TOKEN_EMBD).value;
    assert TensorKept(p, f, g, i);
    ViewData(source, f, i);
    NewDataRows(p, f.tensors[i]);
  }

  /**
    The linker: for every source the profile accepts and that can be laid out in 64 bits, the
    output has the planned length, its planned slots tile the data section, and it parses to
    the same metadata, names, shapes and order, every other tensor byte for byte with its
    scale block, and the embedding as its quantised rows.
    */
  method LinkArtifact(source: seq<byte>, p: Profile) returns (r: Option<(LinkPlan, seq<byte>)>)
    requires |source| <= U64_MAX && RowSized(p.quantise)
    ensures r.Some? <==> ParseFile(source).Some? && Accepted(p, ParseFile(source).value)
                         && Representable(ParseFile(source).value, |source|)
    ensures r.Some? ==> ParseFile(source).Some? && ParseFile(r.value.1).Some?
    ensures r.Some? ==> Preserves(p, ParseFile(source).value, ParseFile(r.value.1).value)
    ensures r.Some? ==> SameOrder(ParseFile(source).value, ParseFile(r.value.1).value)
    ensures r.Some? ==> |r.value.1| == r.value.0.outputBytes && Tiles(ParseFile(source).value, r.value.0)
    ensures r.Some? ==> IsPlan(ParseFile(source).value, |source|, r.value.0)
    ensures r.Some? ==> forall k: nat :: k < |r.value.0.planned| ==> Describes(ParseFile(source).value, r.value.0, k)
    ensures r.Some? ==> EmbeddingRows(p, ParseFile(source).value, ParseFile(r.value.1).value)
  {
    hide EmbeddingRows, Preserves, SameOrder, ParseFile, Accepted, IsPlan, Tiles, Describes, Ready, HeaderDone, RowSized, Representable;
    var built := BuildPlan(source, p);
    if built.None? { return None; }
    var f, plan := built.value.0, built.value.1;
    var written, header := WriteArtifact(source, p, f, plan);
    var out := written.value;
    ArtifactParses(source, p, f, plan, header, out);
    EmbeddingIsQuantised(source, p, f, ParseFile(out).value);
    return Some((plan, out));
  }
}
