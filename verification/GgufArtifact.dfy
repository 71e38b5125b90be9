/**
  The artifact linker from source bytes to output bytes: the plan, the output as it is
  written, and the proof that the output parses to the same model.
  */
module GgufArtifact {
  import opened Wrappers
  import opened Utf8
  import opened GgufBytes
  import opened Gguf
  import opened GgufLink

  /**
    What the linker takes from elsewhere: whether a file is a supported graph with a tied
    head, whether half-precision data is finite, and the row quantiser.
    */
  datatype Profile = Profile(graphOk: GgufFile -> bool, finite: seq<byte> -> bool, quantise: seq<byte> -> seq<byte>)

  /** The quantiser fills a row buffer of fixed size. */
  ghost predicate RowSized(q: seq<byte> -> seq<byte>) {
    forall r: seq<byte> :: |r| % 512 == 0 ==> |q(r)| == |r| / 512 * 210
  }

  // ---------------------------------------------------------------------------
  // The transformed tensor
  // ---------------------------------------------------------------------------

  /** The first tensor of a name. */
  function Position(ts: seq<View>, name: seq<byte>): (r: Option<nat>)
    ensures r.Some? ==> r.value < |ts| && ts[r.value].name == name
  {
    if ts == [] then None else
    var before := Position(ts[..|ts| - 1], name);
    if before.Some? then before
    else if ts[|ts| - 1].name == name then Some(|ts| - 1) else None
  }

  /** A two-dimensional half-precision embedding with whole blocks in every row and finite values. */
  predicate ValidEmbedding(p: Profile, v: View) {
    && v.raw == F16 && |v.shape| == 2 && v.shape[0] > 0
    && TensorBytes(v.shape, Q6K).Some? && p.finite(v.data)
  }

  predicate Accepted(p: Profile, f: GgufFile) {
    && p.graphOk(f)
    && Position(f.tensors, TOKEN_EMBD).Some?
    && ValidEmbedding(p, f.tensors[Position(f.tensors, TOKEN_EMBD).value])
  }

  // ---------------------------------------------------------------------------
  // Physical order
  // ---------------------------------------------------------------------------

  /** All indices, by increasing offset. */
  ghost predicate IsOrder(ts: seq<View>, order: seq<nat>, n: nat)
    requires n <= |ts|
  {
    && |order| == n
    && (forall k :: 0 <= k < n ==> order[k] < n)
    && (forall k, l :: 0 <= k < l < n ==> ts[order[k]].offset < ts[order[l]].offset)
    && (forall i: nat :: i < n ==> i in order)
  }

  ghost predicate DistinctOffsets(ts: seq<View>) {
    forall i, j :: 0 <= i < j < |ts| ==> ts[i].offset != ts[j].offset
  }

  method PhysicalOrder(ts: seq<View>) returns (order: seq<nat>)
    requires DistinctOffsets(ts)
    ensures IsOrder(ts, order, |ts|)
  {
    order := [];
    var n: nat := 0;
    while n < |ts|
      invariant n <= |ts| && IsOrder(ts, order, n)
    {
      order := Insert(ts, order, n);
      n := n + 1;
    }
  }

  method Insert(ts: seq<View>, order: seq<nat>, n: nat) returns (longer: seq<nat>)
    requires n < |ts| && IsOrder(ts, order, n) && DistinctOffsets(ts)
    ensures IsOrder(ts, longer, n + 1)
  {
    var at := 0;
    while at < n && ts[order[at]].offset < ts[n].offset
      invariant 0 <= at <= n
      invariant forall k :: 0 <= k < at ==> ts[order[k]].offset < ts[n].offset
    {
      at := at + 1;
    }
    longer := order[..at] + [n] + order[at..];
    forall k | at <= k < n ensures ts[n].offset < ts[order[k]].offset {
      AboveHere(ts, order, n, at, k);
    }
    Inserted(ts, order, n, at, longer);
  }

  lemma AboveHere(ts: seq<View>, order: seq<nat>, n: nat, at: nat, k: nat)
    requires n < |ts| && IsOrder(ts, order, n) && DistinctOffsets(ts) && at <= k < n
    requires ts[order[at]].offset >= ts[n].offset
    ensures ts[n].offset < ts[order[k]].offset
  {
    assert order[at] < n && ts[order[at]].offset != ts[n].offset;
    if at < k { assert ts[order[at]].offset < ts[order[k]].offset; }
  }

  lemma Inserted(ts: seq<View>, order: seq<nat>, n: nat, at: nat, longer: seq<nat>)
    requires n < |ts| && IsOrder(ts, order, n) && at <= n && longer == order[..at] + [n] + order[at..]
    requires forall k :: 0 <= k < at ==> ts[order[k]].offset < ts[n].offset
    requires forall k :: at <= k < n ==> ts[n].offset < ts[order[k]].offset
    ensures IsOrder(ts, longer, n + 1)
  {
    InsertedSorted(ts, order, n, at, longer);
    forall i: nat | i < n + 1 ensures i in longer {
      if i < n {
        InsertedKeeps(order, n, at, i);
      } else {
        assert longer[at] == i;
      }
    }
  }

  lemma InsertedKeeps(order: seq<nat>, n: nat, at: nat, i: nat)
    requires at <= |order| && i in order
    ensures i in order[..at] + [n] + order[at..]
  {
    var longer := order[..at] + [n] + order[at..];
    var k :| 0 <= k < |order| && order[k] == i;
    assert longer[if k < at then k else k + 1] == i;
  }

  lemma InsertedSorted(ts: seq<View>, order: seq<nat>, n: nat, at: nat, longer: seq<nat>)
    requires n < |ts| && IsOrder(ts, order, n) && at <= n && longer == order[..at] + [n] + order[at..]
    requires forall k :: 0 <= k < at ==> ts[order[k]].offset < ts[n].offset
    requires forall k :: at <= k < n ==> ts[n].offset < ts[order[k]].offset
    ensures |longer| == n + 1 && forall k :: 0 <= k < n + 1 ==> longer[k] < n + 1
    ensures forall k, l :: 0 <= k < l < n + 1 ==> ts[longer[k]].offset < ts[longer[l]].offset
  {
    forall k | 0 <= k < n + 1
      ensures longer[k] == (if k < at then order[k] else if k == at then n else order[k - 1])
    {
    }
    forall k, l | 0 <= k < l < n + 1 ensures ts[longer[k]].offset < ts[longer[l]].offset {
      var k', l' := if k < at then k else k - 1, if l < at then l else l - 1;
      if k != at && l != at { assert ts[order[k']].offset < ts[order[l']].offset; }
    }
  }

  /** Where in the order an index stands. */
  function Slot(order: seq<nat>, i: nat): (k: nat)
    requires i in order
    ensures k < |order| && order[k] == i
  {
    if order[|order| - 1] == i then |order| - 1 else Slot(order[..|order| - 1], i)
  }

  // ---------------------------------------------------------------------------
  // The plan
  // ---------------------------------------------------------------------------

  datatype Planned = Planned(source: nat, slotEnd: nat, rel: nat, raw: nat, bytes: nat, transform: bool)

  /** The public account of one slot. */
  datatype TensorPlan = TensorPlan(name: seq<byte>, transform: bool, sourceRaw: nat, raw: nat, sourceOffset: nat,
                                   outputOffset: nat, sourceBytes: nat, bytes: nat, sourceSlot: nat, outputSlot: nat)

  datatype LinkPlan = LinkPlan(order: seq<nat>, planned: seq<Planned>, tensors: seq<TensorPlan>, outputBytes: nat)

  function PrimaryEnd(v: View): nat {
    v.offset + v.byteLen
  }

  /** A slot runs to the next tensor, or to the end of the file. */
  function SlotEnd(f: GgufFile, fileLen: nat, order: seq<nat>, k: nat): nat
    requires k < |order| && forall l :: 0 <= l < |order| ==> order[l] < |f.tensors|
  {
    if k + 1 < |order| then f.tensors[order[k + 1]].offset else fileLen
  }

  /** Output bytes of a slot: the new primary data and whatever followed the old. */
  function SlotBytes(f: GgufFile, p: Planned): int
    requires p.source < |f.tensors|
  {
    p.bytes + (p.slotEnd - PrimaryEnd(f.tensors[p.source]))
  }

  function RunningAt(f: GgufFile, planned: seq<Planned>, k: nat): int
    requires k <= |planned| && forall l :: 0 <= l < |planned| ==> planned[l].source < |f.tensors|
  {
    if k == 0 then 0 else planned[k - 1].rel + SlotBytes(f, planned[k - 1])
  }

  predicate SourcesOk(f: GgufFile, planned: seq<Planned>) {
    forall l :: 0 <= l < |planned| ==> planned[l].source < |f.tensors|
  }

  /** Slot `k` as planned. */
  ghost predicate PlannedOk(f: GgufFile, fileLen: nat, order: seq<nat>, planned: seq<Planned>, k: nat)
    requires k < |planned| && k < |order| && SourcesOk(f, planned) && IsOrder(f.tensors, order, |f.tensors|)
    requires Position(f.tensors, TOKEN_EMBD).Some? && f.header.alignment > 0
  {
    var p, v := planned[k], f.tensors[order[k]];
    var t := Position(f.tensors, TOKEN_EMBD).value;
    && p.source == order[k]
    && p.slotEnd == SlotEnd(f, fileLen, order, k) && PrimaryEnd(v) <= p.slotEnd <= fileLen
    && p.transform == (order[k] == t)
    && p.raw == (if p.transform then Q6K else v.raw)
    && (if p.transform then TensorBytes(v.shape, Q6K) == Some(p.bytes) else p.bytes == v.byteLen)
    && RunningAt(f, planned, k) >= 0 && AlignUp(RunningAt(f, planned, k), f.header.alignment) == Some(p.rel)
    && f.header.dataStart + p.rel <= U64_MAX
  }

  ghost predicate IsPlan(f: GgufFile, fileLen: nat, plan: LinkPlan) {
    && f.header.alignment > 0 && Position(f.tensors, TOKEN_EMBD).Some?
    && IsOrder(f.tensors, plan.order, |f.tensors|)
    && |plan.planned| == |f.tensors| && SourcesOk(f, plan.planned)
    && (forall k: nat :: k < |plan.planned| ==> PlannedOk(f, fileLen, plan.order, plan.planned, k))
    && plan.outputBytes == f.header.dataStart + RunningAt(f, plan.planned, |plan.planned|)
    && plan.outputBytes <= U64_MAX
  }

  /** The public slots tile the data section: each ends where the next begins, the last at the end. */
  ghost predicate Tiles(f: GgufFile, plan: LinkPlan) {
    |plan.tensors| == |f.tensors| && TilesSoFar(f.header.dataStart, plan.tensors, plan.outputBytes)
  }

  /** Slot `k` ends where the next begins; the last ends at `end`. */
  predicate TileAt(tensors: seq<TensorPlan>, end: int, k: nat)
    requires k < |tensors|
  {
    tensors[k].outputOffset + tensors[k].outputSlot == (if k + 1 < |tensors| then tensors[k + 1].outputOffset else end)
  }

  /** Slots that tile from `start` to `end`. */
  ghost predicate TilesSoFar(start: nat, tensors: seq<TensorPlan>, end: int) {
    && (if tensors == [] then end == start else tensors[0].outputOffset == start)
    && forall k: nat :: k < |tensors| ==> TileAt(tensors, end, k)
  }

  /** The public account agrees with the internal plan and with the source. */
  ghost predicate Describes(f: GgufFile, plan: LinkPlan, k: nat)
    requires k < |plan.planned| && k < |plan.tensors| && SourcesOk(f, plan.planned)
  {
    var p, v, q := plan.planned[k], f.tensors[plan.planned[k].source], plan.tensors[k];
    q.name == v.name && q.transform == p.transform && q.sourceRaw == v.raw && q.raw == p.raw && q.sourceOffset == v.offset
    && q.outputOffset == f.header.dataStart + p.rel && q.sourceBytes == v.byteLen && q.bytes == p.bytes
    && q.sourceSlot == p.slotEnd - v.offset
  }

  // ---------------------------------------------------------------------------
  // What the source guarantees
  // ---------------------------------------------------------------------------

  lemma ParsedViews(source: seq<byte>, f: GgufFile, i: nat)
    requires ParseFile(source) == Some(f) && i < |f.tensors|
    ensures |f.tensors| == |f.header.entries| && EntryFits(|source|, f.header.dataStart, f.header.entries, i)
    ensures f.tensors[i] == ViewOf(source, f.header.dataStart, f.header.entries, i)
  {
    hide ParseHeader, EntryFits, ViewOf;
    var h := f.header;
    assert FirstFit(|source|, h, |h.entries|);
    ViewsAt(source, h, |h.entries|, i);
  }

  lemma ParsedOffsets(source: seq<byte>, f: GgufFile)
    requires ParseFile(source) == Some(f)
    ensures DistinctOffsets(f.tensors)
  {
    hide ParseFile, TensorBytes;
    forall i, j | 0 <= i < j < |f.tensors| ensures f.tensors[i].offset != f.tensors[j].offset {
      ParsedViews(source, f, i);
      ParsedViews(source, f, j);
    }
  }

  /** A tensor's data and scale block lie within its slot. */
  lemma SlotHolds(source: seq<byte>, f: GgufFile, order: seq<nat>, k: nat)
    requires ParseFile(source) == Some(f) && IsOrder(f.tensors, order, |f.tensors|) && k < |order|
    ensures |f.tensors| == |f.header.entries| && TensorBytes(f.header.entries[order[k]].shape, f.header.entries[order[k]].raw).Some?
    ensures f.tensors[order[k]].offset + Footprint(f.header.entries[order[k]]) <= SlotEnd(f, |source|, order, k) <= |source|
  {
    hide ParseFile, TensorBytes;
    ParsedViews(source, f, order[k]);
    if k + 1 < |order| {
      ParsedViews(source, f, order[k + 1]);
      assert f.tensors[order[k]].offset < f.tensors[order[k + 1]].offset;
    }
  }

  lemma HeaderPositive(source: seq<byte>, f: GgufFile)
    requires ParseFile(source) == Some(f)
    ensures f.header.alignment > 0 && ParseHeader(source) == Some(f.header) && |f.tensors| == |f.header.entries|
    ensures WellPlaced(f.header, |source|)
  {
    hide EntryFits, ViewOf;
    assert ParseHeader(source).Some?;
  }

  // ---------------------------------------------------------------------------
  // When the plan fits 64-bit offsets
  // ---------------------------------------------------------------------------

  /** The next multiple, however large. */
  function Aligned(offset: int, alignment: nat): (r: int)
    requires alignment > 0
    ensures offset <= r
  {
    if offset % alignment == 0 then offset else offset + (alignment - offset % alignment)
  }

  lemma AlignUpIsAligned(offset: nat, alignment: nat)
    requires alignment > 0
    ensures AlignUp(offset, alignment).Some? ==> AlignUp(offset, alignment).value == Aligned(offset, alignment)
    ensures AlignUp(offset, alignment).None? ==> Aligned(offset, alignment) > U64_MAX
  {
  }

  /** Primary bytes of tensor `i` in the output. */
  function NewBytes(f: GgufFile, i: nat): nat
    requires i < |f.tensors|
  {
    var v := f.tensors[i];
    if Position(f.tensors, TOKEN_EMBD) == Some(i) && TensorBytes(v.shape, Q6K).Some? then TensorBytes(v.shape, Q6K).value
    else v.byteLen
  }

  predicate InRange(f: GgufFile, order: seq<nat>) {
    forall l :: 0 <= l < |order| ==> order[l] < |f.tensors|
  }

  /** The size once slot `k` is laid out after `running` bytes. */
  function NextSize(f: GgufFile, fileLen: nat, order: seq<nat>, k: nat, running: int): int
    requires k < |order| && f.header.alignment > 0 && InRange(f, order)
  {
    Aligned(running, f.header.alignment)
    + (NewBytes(f, order[k]) + (SlotEnd(f, fileLen, order, k) - PrimaryEnd(f.tensors[order[k]])))
  }

  /** Size of the data section with the first `k` slots in physical order laid out again. */
  function SizeTo(f: GgufFile, fileLen: nat, order: seq<nat>, k: nat): int
    requires k <= |order| && f.header.alignment > 0 && InRange(f, order)
  {
    if k == 0 then 0 else NextSize(f, fileLen, order, k - 1, SizeTo(f, fileLen, order, k - 1))
  }

  /** A 64-bit offset reaches the end of the output. */
  ghost predicate Representable(f: GgufFile, fileLen: nat) {
    && f.header.alignment > 0
    && exists order: seq<nat> :: IsOrder(f.tensors, order, |f.tensors|)
         && f.header.dataStart + SizeTo(f, fileLen, order, |order|) <= U64_MAX
  }

  /** There is one physical order. */
  lemma OrderIsUnique(ts: seq<View>, a: seq<nat>, b: seq<nat>)
    requires IsOrder(ts, a, |ts|) && IsOrder(ts, b, |ts|)
    ensures a == b
  {
    OrdersAgree(ts, a, b, |ts|);
  }

  lemma {:induction false} OrdersAgree(ts: seq<View>, a: seq<nat>, b: seq<nat>, n: nat)
    requires IsOrder(ts, a, |ts|) && IsOrder(ts, b, |ts|) && n <= |ts|
    ensures a[..n] == b[..n]
  {
    if n > 0 {
      OrdersAgree(ts, a, b, n - 1);
      NotLater(ts, a, b, n - 1);
      NotLater(ts, b, a, n - 1);
      SameOffset(ts, a, b, n - 1);
      assert a[..n] == a[..n - 1] + [a[n - 1]] && b[..n] == b[..n - 1] + [b[n - 1]];
    }
  }

  lemma NotLater(ts: seq<View>, a: seq<nat>, b: seq<nat>, k: nat)
    requires IsOrder(ts, a, |ts|) && IsOrder(ts, b, |ts|) && k < |ts| && a[..k] == b[..k]
    ensures ts[a[k]].offset <= ts[b[k]].offset
  {
    assert b[k] in a;
    var j :| 0 <= j < |a| && a[j] == b[k];
    assert forall i :: 0 <= i < k ==> a[i] == a[..k][i] == b[i] && ts[b[i]].offset < ts[b[k]].offset;
    if k < j { assert ts[a[k]].offset < ts[a[j]].offset; }
  }

  lemma SameOffset(ts: seq<View>, a: seq<nat>, b: seq<nat>, k: nat)
    requires IsOrder(ts, a, |ts|) && IsOrder(ts, b, |ts|) && k < |ts| && ts[a[k]].offset == ts[b[k]].offset
    ensures a[k] == b[k]
  {
    assert b[k] in a;
    var j :| 0 <= j < |a| && a[j] == b[k];
    assert forall i :: 0 <= i < |a| && i != k ==> ts[a[i]].offset != ts[a[k]].offset;
  }

  /** Every slot adds to the size. */
  lemma {:induction false} SizeGrows(source: seq<byte>, f: GgufFile, order: seq<nat>, j: nat, k: nat)
    requires ParseFile(source) == Some(f) && IsOrder(f.tensors, order, |f.tensors|) && f.header.alignment > 0
    requires j <= k <= |order|
    ensures 0 <= SizeTo(f, |source|, order, j) <= SizeTo(f, |source|, order, k)
  {
    hide ParseFile, TensorBytes, NewBytes, Aligned;
    if k > 0 {
      SuffixFits(source, f, order, k - 1);
      SizeGrows(source, f, order, if j < k then j else k - 1, k - 1);
    }
  }

  lemma SuffixFits(source: seq<byte>, f: GgufFile, order: seq<nat>, k: nat)
    requires ParseFile(source) == Some(f) && IsOrder(f.tensors, order, |f.tensors|) && k < |order|
    ensures PrimaryEnd(f.tensors[order[k]]) <= SlotEnd(f, |source|, order, k)
  {
    hide ParseFile, TensorBytes;
    SlotHolds(source, f, order, k);
    ParsedViews(source, f, order[k]);
  }

  /** Once a prefix of the layout is beyond 64 bits, so is the whole. */
  lemma TooLarge(source: seq<byte>, f: GgufFile, order: seq<nat>, k: nat)
    requires ParseFile(source) == Some(f) && IsOrder(f.tensors, order, |f.tensors|) && f.header.alignment > 0
    requires k <= |order| && f.header.dataStart + SizeTo(f, |source|, order, k) > U64_MAX
    ensures !Representable(f, |source|)
  {
    hide ParseFile, SizeTo;
    forall other: seq<nat> | IsOrder(f.tensors, other, |f.tensors|)
      ensures f.header.dataStart + SizeTo(f, |source|, other, |other|) > U64_MAX
    {
      OrderIsUnique(f.tensors, order, other);
      SizeGrows(source, f, order, k, |order|);
    }
  }

  // ---------------------------------------------------------------------------
  // Building the plan
  // ---------------------------------------------------------------------------

  /** One slot planned after `planned`; none when an offset would not fit 64 bits. */
  method PlanSlot(source: seq<byte>, p: Profile, f: GgufFile, order: seq<nat>, planned: seq<Planned>, running: nat)
    returns (r: Option<Planned>)
    requires ParseFile(source) == Some(f) && Accepted(p, f) && f.header.alignment > 0
    requires IsOrder(f.tensors, order, |f.tensors|) && |planned| < |order| && SourcesOk(f, planned)
    requires running == RunningAt(f, planned, |planned|)
    ensures InRange(f, order)
    ensures var size := NextSize(f, |source|, order, |planned|, running);
      if r.None? then f.header.dataStart + size > U64_MAX
      else r.value.source < |f.tensors| && r.value.rel + SlotBytes(f, r.value) == size
    ensures r.Some? ==> r.value.source < |f.tensors| && PlannedOk(f, |source|, order, planned + [r.value], |planned|)
    ensures r.Some? ==> SlotBytes(f, r.value) >= 0 && f.header.dataStart + r.value.rel + SlotBytes(f, r.value) <= U64_MAX
  {
    hide ParseFile, TensorBytes, Position, AlignUp;
    var k := |planned|;
    var t := Position(f.tensors, TOKEN_EMBD).value;
    var v := f.tensors[order[k]];
    var slotEnd := SlotEnd(f, |source|, order, k);
    SlotHolds(source, f, order, k);
    ParsedViews(source, f, order[k]);
    var suffix := slotEnd - PrimaryEnd(v);
    var rel := AlignUp(running, f.header.alignment);
    AlignUpIsAligned(running, f.header.alignment);
    if rel.None? { return None; }
    var transform := order[k] == t;
    var bytes := if transform then TensorBytes(v.shape, Q6K).value else v.byteLen;
    if bytes + suffix > U64_MAX || rel.value + (bytes + suffix) > U64_MAX
       || f.header.dataStart + rel.value + (bytes + suffix) > U64_MAX {
      return None;
    }
    var planned' := Planned(order[k], slotEnd, rel.value, if transform then Q6K else v.raw, bytes, transform);
    assert RunningAt(f, planned + [planned'], k) == running by { RunningPrefix(f, planned, planned', k); }
    r := Some(planned');
  }

  lemma RunningPrefix(f: GgufFile, planned: seq<Planned>, p: Planned, k: nat)
    requires k <= |planned| && SourcesOk(f, planned) && p.source < |f.tensors|
    ensures RunningAt(f, planned + [p], k) == RunningAt(f, planned, k)
  {
    if k > 0 { assert (planned + [p])[k - 1] == planned[k - 1]; }
  }

  lemma PlannedPrefix(f: GgufFile, fileLen: nat, order: seq<nat>, planned: seq<Planned>, p: Planned, k: nat)
    requires k < |planned| < |order| && SourcesOk(f, planned) && p.source < |f.tensors|
    requires IsOrder(f.tensors, order, |f.tensors|) && Position(f.tensors, TOKEN_EMBD).Some? && f.header.alignment > 0
    requires PlannedOk(f, fileLen, order, planned, k)
    ensures PlannedOk(f, fileLen, order, planned + [p], k)
  {
    hide Position, AlignUp, TensorBytes, IsOrder;
    RunningPrefix(f, planned, p, k);
    assert (planned + [p])[k] == planned[k];
  }

  /** The plan under construction. */
  ghost predicate SoFar(f: GgufFile, fileLen: nat, order: seq<nat>, planned: seq<Planned>, tensors: seq<TensorPlan>, running: nat)
    requires IsOrder(f.tensors, order, |f.tensors|) && Position(f.tensors, TOKEN_EMBD).Some? && f.header.alignment > 0
  {
    && |planned| <= |order| && |tensors| == |planned| && SourcesOk(f, planned)
    && running == RunningAt(f, planned, |planned|)
    && (forall k: nat :: k < |planned| ==> PlannedOk(f, fileLen, order, planned, k))
    && TilesSoFar(f.header.dataStart, tensors, f.header.dataStart + running)
    && (forall k: nat :: k < |planned| ==> Describes(f, LinkPlan(order, planned, tensors, 0), k))
  }

  lemma PlannedGrows(f: GgufFile, fileLen: nat, order: seq<nat>, planned: seq<Planned>, q: Planned)
    requires IsOrder(f.tensors, order, |f.tensors|) && Position(f.tensors, TOKEN_EMBD).Some? && f.header.alignment > 0
    requires |planned| < |order| && SourcesOk(f, planned) && q.source < |f.tensors|
    requires forall k: nat :: k < |planned| ==> PlannedOk(f, fileLen, order, planned, k)
    requires PlannedOk(f, fileLen, order, planned + [q], |planned|)
    ensures forall k: nat :: k < |planned| + 1 ==> PlannedOk(f, fileLen, order, planned + [q], k)
  {
    hide PlannedOk, IsOrder, Position;
    forall k: nat | k < |planned| + 1 ensures PlannedOk(f, fileLen, order, planned + [q], k) {
      if k < |planned| { PlannedPrefix(f, fileLen, order, planned, q, k); }
    }
  }

  function Account(f: GgufFile, q: Planned): TensorPlan
    requires q.source < |f.tensors| && q.slotEnd >= f.tensors[q.source].offset && SlotBytes(f, q) >= 0
  {
    var v := f.tensors[q.source];
    TensorPlan(v.name, q.transform, v.raw, q.raw, v.offset, f.header.dataStart + q.rel, v.byteLen, q.bytes,
               q.slotEnd - v.offset, SlotBytes(f, q))
  }

  lemma TilesGrow(f: GgufFile, tensors: seq<TensorPlan>, patched: seq<TensorPlan>, running: nat, q: Planned)
    requires q.source < |f.tensors| && q.slotEnd >= f.tensors[q.source].offset && SlotBytes(f, q) >= 0
    requires TilesSoFar(f.header.dataStart, tensors, f.header.dataStart + running) && |patched| == |tensors| && (tensors == [] ==> q.rel == 0)
    requires forall k: nat :: k < |tensors| ==> patched[k] == tensors[k].(outputSlot := patched[k].outputSlot)
    requires forall k: nat :: k + 1 < |tensors| ==> patched[k] == tensors[k]
    requires tensors != [] ==>
      patched[|tensors| - 1].outputSlot == f.header.dataStart + q.rel - tensors[|tensors| - 1].outputOffset
    ensures TilesSoFar(f.header.dataStart, patched + [Account(f, q)], f.header.dataStart + (q.rel + SlotBytes(f, q)))
  {
    hide SlotBytes;
    var all, end := patched + [Account(f, q)], f.header.dataStart + (q.rel + SlotBytes(f, q));
    var was := f.header.dataStart + running;
    forall k: nat | k < |all|
      ensures TileAt(all, end, k)
    {
      if k < |tensors| {
        assert TileAt(tensors, was, k);
        assert all[k] == patched[k] && patched[k].outputOffset == tensors[k].outputOffset;
        if k + 1 < |tensors| { assert all[k + 1] == patched[k + 1] && patched[k + 1].outputOffset == tensors[k + 1].outputOffset; }
      }
    }
  }

  lemma DescriptionsGrow(f: GgufFile, order: seq<nat>, planned: seq<Planned>, tensors: seq<TensorPlan>, patched: seq<TensorPlan>, q: Planned)
    requires SourcesOk(f, planned) && |tensors| == |planned| == |patched|
    requires q.source < |f.tensors| && q.slotEnd >= f.tensors[q.source].offset && SlotBytes(f, q) >= 0
    requires forall k: nat :: k < |planned| ==> Describes(f, LinkPlan(order, planned, tensors, 0), k)
    requires forall k: nat :: k < |tensors| ==> patched[k] == tensors[k].(outputSlot := patched[k].outputSlot)
    ensures SourcesOk(f, planned + [q])
    ensures forall k: nat :: k < |planned| + 1 ==> Describes(f, LinkPlan(order, planned + [q], patched + [Account(f, q)], 0), k)
  {
    hide SlotBytes;
    forall k: nat | k < |planned| + 1
      ensures Describes(f, LinkPlan(order, planned + [q], patched + [Account(f, q)], 0), k)
    {
      if k < |planned| { assert Describes(f, LinkPlan(order, planned, tensors, 0), k); }
    }
  }

  /** One round of the planning loop. */
  method PlanNext(source: seq<byte>, p: Profile, f: GgufFile, order: seq<nat>, planned: seq<Planned>,
                  tensors: seq<TensorPlan>, running: nat)
    returns (r: Option<(seq<Planned>, seq<TensorPlan>, nat)>)
    requires ParseFile(source) == Some(f) && Accepted(p, f) && f.header.alignment > 0 && Position(f.tensors, TOKEN_EMBD).Some?
    requires IsOrder(f.tensors, order, |f.tensors|) && |planned| < |order|
    requires SoFar(f, |source|, order, planned, tensors, running)
    ensures InRange(f, order)
    ensures var size := NextSize(f, |source|, order, |planned|, running);
      if r.None? then f.header.dataStart + size > U64_MAX else r.value.2 == size
    ensures r.Some? ==> |r.value.0| == |planned| + 1 && SoFar(f, |source|, order, r.value.0, r.value.1, r.value.2)
  {
    hide ParseFile, Accepted, PlannedOk, IsOrder, Position, Describes, Account, SlotBytes, NextSize;
    var next := PlanSlot(source, p, f, order, planned, running);
    if next.None? { return None; }
    var q := next.value;
    SlotWithin(source, f, order, planned, q);
    LastBelow(f, tensors, running, q);
    var patched := PatchPrevious(f, tensors, f.header.dataStart + q.rel);
    PlannedGrows(f, |source|, order, planned, q);
    TilesGrow(f, tensors, patched, running, q);
    DescriptionsGrow(f, order, planned, tensors, patched, q);
    RunningNext(f, planned, q);
    r := Some((planned + [q], patched + [Account(f, q)], q.rel + SlotBytes(f, q)));
  }

  lemma LastBelow(f: GgufFile, tensors: seq<TensorPlan>, running: nat, q: Planned)
    requires TilesSoFar(f.header.dataStart, tensors, f.header.dataStart + running) && q.rel >= running
    ensures tensors != [] ==> tensors[|tensors| - 1].outputOffset <= f.header.dataStart + q.rel
  {
    if tensors != [] {
      var last, end := |tensors| - 1, f.header.dataStart + running;
      assert TileAt(tensors, end, last);
    }
  }

  lemma RunningNext(f: GgufFile, planned: seq<Planned>, q: Planned)
    requires SourcesOk(f, planned) && q.source < |f.tensors|
    ensures SourcesOk(f, planned + [q]) && RunningAt(f, planned + [q], |planned + [q]|) == q.rel + SlotBytes(f, q)
  {
  }

  method BuildPlan(source: seq<byte>, p: Profile) returns (r: Option<(GgufFile, LinkPlan)>)
    requires |source| <= U64_MAX
    ensures r.Some? ==> ParseFile(source) == Some(r.value.0) && Accepted(p, r.value.0)
    ensures r.Some? ==> IsPlan(r.value.0, |source|, r.value.1) && Tiles(r.value.0, r.value.1)
    ensures r.Some? ==> forall k: nat :: k < |r.value.1.planned| ==> Describes(r.value.0, r.value.1, k)
    ensures r.Some? <==> ParseFile(source).Some? && Accepted(p, ParseFile(source).value)
                         && Representable(ParseFile(source).value, |source|)
  {
    hide *;
    var parsed := Parse(source);
    if parsed.None? { return None; }
    var f := parsed.value;
    if !Accepted(p, f) { return None; }
    AcceptedHasEmbedding(p, f);
    HeaderPositive(source, f);
    ParsedOffsets(source, f);
    var order := PhysicalOrder(f.tensors);
    OrderSize(f, order);
    var planned: seq<Planned> := [];
    var tensors: seq<TensorPlan> := [];
    var running: nat := 0;
    NothingPlanned(f, |source|, order);
    NoSize(f, |source|, order);
    while |planned| < |order|
      invariant |planned| <= |order| && SoFar(f, |source|, order, planned, tensors, running)
      invariant InRange(f, order) && running == SizeTo(f, |source|, order, |planned|)
    {
      SizeStep(f, |source|, order, |planned|);
      var next := PlanNext(source, p, f, order, planned, tensors, running);
      if next.None? {
        TooLarge(source, f, order, |planned| + 1);
        return None;
      }
      planned, tensors, running := next.value.0, next.value.1, next.value.2;
    }
    if f.header.dataStart + running > U64_MAX {
      TooLarge(source, f, order, |order|);
      return None;
    }
    IsRepresentable(f, |source|, order);
    var plan := LinkPlan(order, planned, tensors, f.header.dataStart + running);
    AllPlanned(f, |source|, plan, running);
    r := Some((f, plan));
  }

  lemma SizeStep(f: GgufFile, fileLen: nat, order: seq<nat>, k: nat)
    requires k < |order| && f.header.alignment > 0 && InRange(f, order)
    ensures SizeTo(f, fileLen, order, k + 1) == NextSize(f, fileLen, order, k, SizeTo(f, fileLen, order, k))
  {
    hide NextSize;
  }

  lemma NoSize(f: GgufFile, fileLen: nat, order: seq<nat>)
    requires f.header.alignment > 0 && IsOrder(f.tensors, order, |f.tensors|)
    ensures InRange(f, order) && SizeTo(f, fileLen, order, 0) == 0
  {
  }

  lemma IsRepresentable(f: GgufFile, fileLen: nat, order: seq<nat>)
    requires IsOrder(f.tensors, order, |f.tensors|) && f.header.alignment > 0
    requires f.header.dataStart + SizeTo(f, fileLen, order, |order|) <= U64_MAX
    ensures Representable(f, fileLen)
  {
    hide SizeTo;
  }

  lemma OrderSize(f: GgufFile, order: seq<nat>)
    requires IsOrder(f.tensors, order, |f.tensors|)
    ensures |order| == |f.tensors|
  {
  }

  lemma NothingPlanned(f: GgufFile, fileLen: nat, order: seq<nat>)
    requires IsOrder(f.tensors, order, |f.tensors|) && Position(f.tensors, TOKEN_EMBD).Some? && f.header.alignment > 0
    ensures SoFar(f, fileLen, order, [], [], 0)
  {
  }

  lemma AllPlanned(f: GgufFile, fileLen: nat, plan: LinkPlan, running: nat)
    requires IsOrder(f.tensors, plan.order, |f.tensors|) && Position(f.tensors, TOKEN_EMBD).Some? && f.header.alignment > 0
    requires |plan.planned| >= |plan.order| && SoFar(f, fileLen, plan.order, plan.planned, plan.tensors, running)
    requires plan.outputBytes == f.header.dataStart + running <= U64_MAX
    ensures IsPlan(f, fileLen, plan) && Tiles(f, plan)
    ensures forall k: nat :: k < |plan.planned| ==> Describes(f, plan, k)
  {
    hide PlannedOk, Position, RunningAt;
    OrderSize(f, plan.order);
    forall k: nat | k < |plan.planned| ensures Describes(f, plan, k) {
      assert Describes(f, LinkPlan(plan.order, plan.planned, plan.tensors, 0), k);
    }
  }

  lemma AcceptedHasEmbedding(p: Profile, f: GgufFile)
    requires Accepted(p, f)
    ensures Position(f.tensors, TOKEN_EMBD).Some?
  {
  }

  lemma SlotWithin(source: seq<byte>, f: GgufFile, order: seq<nat>, planned: seq<Planned>, q: Planned)
    requires |planned| < |order| && SourcesOk(f, planned) && q.source < |f.tensors|
    requires IsOrder(f.tensors, order, |f.tensors|) && Position(f.tensors, TOKEN_EMBD).Some? && f.header.alignment > 0
    requires PlannedOk(f, |source|, order, planned + [q], |planned|)
    ensures q.slotEnd >= f.tensors[q.source].offset && SlotBytes(f, q) >= 0
    ensures q.rel >= RunningAt(f, planned, |planned|) && (|planned| == 0 ==> q.rel == 0)
  {
    hide Position, TensorBytes;
    RunningPrefix(f, planned, q, |planned|);
    assert (planned + [q])[|planned|] == q;
  }

  /** The previous slot grows to the next offset. */
  method PatchPrevious(f: GgufFile, tensors: seq<TensorPlan>, offset: nat) returns (patched: seq<TensorPlan>)
    requires tensors != [] ==> tensors[|tensors| - 1].outputOffset <= offset
    ensures |patched| == |tensors|
    ensures forall k: nat :: k < |tensors| ==> patched[k] == tensors[k].(outputSlot := patched[k].outputSlot)
    ensures forall k: nat :: k + 1 < |tensors| ==> patched[k] == tensors[k]
    ensures tensors != [] ==> patched[|tensors| - 1].outputSlot == offset - tensors[|tensors| - 1].outputOffset
  {
    patched := tensors;
    if tensors != [] {
      var last := |tensors| - 1;
      patched := tensors[last := tensors[last].(outputSlot := offset - tensors[last].outputOffset)];
    }
  }
}
