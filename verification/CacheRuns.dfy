/**
  Runs of the quantised cache: appends, rollbacks and resets in any order. What the stores
  hold afterwards, what reading them back is off by, and that the cache object runs so.
  */
module CacheRuns {
  import opened Transformer
  import opened KvCache
  import opened Absmax

  datatype Op = Append(l: nat, k: seq<real>, v: seq<real>) | Rollback(position: nat) | Reset

  /** The vectors handed to `Append` that the cache still holds, layer by layer. */
  type Originals = seq<seq<(seq<real>, seq<real>)>>

  /** The dimensions of a cache. */
  datatype Shape = Shape(kvDim: nat, cap: nat)

  /** The append is of the cache's width, to one of its layers. */
  predicate Fitting(shape: Shape, nLayers: nat, op: Op)
    requires op.Append?
  {
    op.l < nLayers && |op.k| == |op.v| == shape.kvDim
  }

  function StepStores(shape: Shape, cs: Cache<real>, op: Op): (r: Cache<real>)
    ensures |r| == |cs|
  {
    match op
    case Append(l, k, v) =>
      if Fitting(shape, |cs|, op) && |cs[l]| < shape.cap
      then cs[l := cs[l] + [KV(CacheCodec().quantise(k), CacheCodec().quantise(v))]] else cs
    case Rollback(position) => seq(|cs|, l requires 0 <= l < |cs| => Truncate(cs[l], position))
    case Reset => EmptyStores(|cs|)
  }

  function StepOriginals(shape: Shape, os: Originals, op: Op): (r: Originals)
    ensures |r| == |os|
  {
    match op
    case Append(l, k, v) =>
      if Fitting(shape, |os|, op) && |os[l]| < shape.cap then os[l := os[l] + [(k, v)]] else os
    case Rollback(position) => seq(|os|, l requires 0 <= l < |os| => Truncate(os[l], position))
    case Reset => seq(|os|, _ => [])
  }

  function RunFrom(shape: Shape, cs: Cache<real>, ops: seq<Op>): (r: Cache<real>)
    ensures |r| == |cs|
  {
    if ops == [] then cs else StepStores(shape, RunFrom(shape, cs, ops[..|ops| - 1]), ops[|ops| - 1])
  }

  function RunStores(shape: Shape, nLayers: nat, ops: seq<Op>): (r: Cache<real>)
    ensures |r| == nLayers
  {
    RunFrom(shape, EmptyStores(nLayers), ops)
  }

  function RunOriginals(shape: Shape, nLayers: nat, ops: seq<Op>): (r: Originals)
    ensures |r| == nLayers
  {
    if ops == [] then seq(nLayers, _ => [])
    else StepOriginals(shape, RunOriginals(shape, nLayers, ops[..|ops| - 1]), ops[|ops| - 1])
  }

  // ---------------------------------------------------------------------------
  // The cache object
  // ---------------------------------------------------------------------------

  /** One operation on a cache object; what the object refuses leaves it as it was. */
  method Perform(cache: KVCache<real>, op: Op)
    requires cache.Valid() && cache.codec == CacheCodec()
    modifies cache
    ensures cache.Valid()
    ensures cache.Contents() == StepStores(Shape(cache.kvDim, cache.maxSeqLen), old(cache.Contents()), op)
  {
    hide Rows, CacheCodec;
    ghost var before := cache.Contents();
    match op {
      case Append(l, k, v) =>
        var ok := cache.Append(l, k, v);
      case Rollback(position) =>
        cache.Rollback(position);
        assert cache.Contents() == StepStores(Shape(cache.kvDim, cache.maxSeqLen), before, op);
      case Reset =>
        cache.Reset();
    }
  }

  /** Any operations on a cache object run as the steps say. */
  method PerformAll(cache: KVCache<real>, ops: seq<Op>)
    requires cache.Valid() && cache.codec == CacheCodec()
    modifies cache
    ensures cache.Valid()
    ensures cache.Contents() == RunFrom(Shape(cache.kvDim, cache.maxSeqLen), old(cache.Contents()), ops)
  {
    hide StepStores, CacheCodec, Rows;
    ghost var shape, before := Shape(cache.kvDim, cache.maxSeqLen), cache.Contents();
    var n := 0;
    while n < |ops|
      invariant 0 <= n <= |ops| && cache.Valid()
      invariant cache.Contents() == RunFrom(shape, before, ops[..n])
    {
      assert ops[..n + 1][..n] == ops[..n];
      Perform(cache, ops[n]);
      n := n + 1;
    }
    assert ops[..n] == ops;
  }

  // ---------------------------------------------------------------------------
  // What a run keeps
  // ---------------------------------------------------------------------------

  /** The stores are the quantised originals, row by row. */
  ghost predicate Holds(cs: Cache<real>, os: Originals) {
    && |cs| == |os|
    && forall l :: 0 <= l < |cs| ==>
         && |cs[l]| == |os[l]|
         && forall p :: 0 <= p < |cs[l]| ==>
              cs[l][p] == KV(CacheCodec().quantise(os[l][p].0), CacheCodec().quantise(os[l][p].1))
  }

  lemma {:induction false} RunHolds(shape: Shape, nLayers: nat, ops: seq<Op>)
    ensures Holds(RunStores(shape, nLayers, ops), RunOriginals(shape, nLayers, ops))
  {
    hide Codes, CacheCodec;
    if ops != [] {
      RunHolds(shape, nLayers, ops[..|ops| - 1]);
    }
  }

  /** Vectors of the cache's width, within its capacity. */
  ghost predicate OfShape(shape: Shape, os: Originals) {
    forall l :: 0 <= l < |os| ==>
      && |os[l]| <= shape.cap
      && forall p :: 0 <= p < |os[l]| ==> |os[l][p].0| == |os[l][p].1| == shape.kvDim
  }

  lemma StepKeepsShape(shape: Shape, os: Originals, op: Op)
    requires OfShape(shape, os)
    ensures OfShape(shape, StepOriginals(shape, os, op))
  {
    var next: Originals := StepOriginals(shape, os, op);
    forall l | 0 <= l < |next|
      ensures |next[l]| <= shape.cap && forall p :: 0 <= p < |next[l]| ==> |next[l][p].0| == |next[l][p].1| == shape.kvDim
    {
      assert |os[l]| <= shape.cap;
    }
  }

  lemma {:induction false} RunKeepsShape(shape: Shape, nLayers: nat, ops: seq<Op>)
    ensures OfShape(shape, RunOriginals(shape, nLayers, ops))
  {
    if ops != [] {
      RunKeepsShape(shape, nLayers, ops[..|ops| - 1]);
      StepKeepsShape(shape, RunOriginals(shape, nLayers, ops[..|ops| - 1]), ops[|ops| - 1]);
    }
  }

  lemma ReadError(x: seq<real>, i: nat)
    ensures var back := ReadRow(CacheCodec(), CacheCodec().quantise(x));
            |back| == |x| && (i < |x| ==> Abs(x[i] - back[i]) <= AbsMax(x) / 254.0)
  {
    hide Codes, AbsMax, Dequant;
    if i < |x| {
      RowError(x, 0.0, i);
    }
  }

  /**
    After any run of appends, rollbacks and resets, every element read back is within
    absmax / 254 of the element appended at that position, for keys and for values.
    */
  lemma ReadBackError(shape: Shape, nLayers: nat, ops: seq<Op>, l: nat, p: nat, i: nat)
    requires l < nLayers && p < |RunOriginals(shape, nLayers, ops)[l]| && i < shape.kvDim
    ensures p < |RunStores(shape, nLayers, ops)[l]|
    ensures var (k, v) := RunOriginals(shape, nLayers, ops)[l][p];
            var kv := RunStores(shape, nLayers, ops)[l][p];
            && |ReadRow(CacheCodec(), kv.k)| == |k| == shape.kvDim && |ReadRow(CacheCodec(), kv.v)| == |v| == shape.kvDim
            && Abs(k[i] - ReadRow(CacheCodec(), kv.k)[i]) <= AbsMax(k) / 254.0
            && Abs(v[i] - ReadRow(CacheCodec(), kv.v)[i]) <= AbsMax(v) / 254.0
  {
    hide Codes, RunStores, RunOriginals, AbsMax, ReadRow;
    RunHolds(shape, nLayers, ops);
    RunKeepsShape(shape, nLayers, ops);
    var (k, v) := RunOriginals(shape, nLayers, ops)[l][p];
    ReadError(k, i);
    ReadError(v, i);
  }

  // ---------------------------------------------------------------------------
  // Which vectors survive
  // ---------------------------------------------------------------------------

  /** How many positions of layer `l` are filled after a run. */
  function Filled(shape: Shape, nLayers: nat, ops: seq<Op>, l: nat): nat {
    if ops == [] then 0 else
    var n := Filled(shape, nLayers, ops[..|ops| - 1], l);
    match ops[|ops| - 1]
    case Append(at, k, v) =>
      if at == l < nLayers && |k| == shape.kvDim && |v| == shape.kvDim && n < shape.cap then n + 1 else n
    case Rollback(position) => if position < n then position else n
    case Reset => 0
  }

  predicate Spares(op: Op, p: nat) {
    op.Append? || (op.Rollback? && p < op.position)
  }

  /** Operation `i` appended at position `p` of layer `l`, and nothing later cut that far back. */
  ghost predicate WrittenBy(shape: Shape, nLayers: nat, ops: seq<Op>, i: nat, l: nat, p: nat) {
    && i < |ops| && ops[i].Append? && ops[i].l == l < nLayers
    && |ops[i].k| == shape.kvDim && |ops[i].v| == shape.kvDim
    && p == Filled(shape, nLayers, ops[..i], l) < shape.cap
    && forall t :: i < t < |ops| ==> Spares(ops[t], p)
  }

  lemma {:induction false} FilledIsLength(shape: Shape, nLayers: nat, ops: seq<Op>, l: nat)
    requires l < nLayers
    ensures |RunOriginals(shape, nLayers, ops)[l]| == Filled(shape, nLayers, ops, l)
  {
    if ops != [] { FilledIsLength(shape, nLayers, ops[..|ops| - 1], l); }
  }

  lemma WrittenByPrefix(shape: Shape, nLayers: nat, ops: seq<Op>, i: nat, l: nat, p: nat)
    requires i + 1 < |ops|
    ensures WrittenBy(shape, nLayers, ops, i, l, p)
       <==> WrittenBy(shape, nLayers, ops[..|ops| - 1], i, l, p) && Spares(ops[|ops| - 1], p)
  {
    hide Filled, Spares;
    var init := ops[..|ops| - 1];
    assert init[..i] == ops[..i];
    if WrittenBy(shape, nLayers, init, i, l, p) && Spares(ops[|ops| - 1], p) {
      forall t | i < t < |ops| ensures Spares(ops[t], p) {
        if t < |init| { assert Spares(init[t], p); }
      }
    }
  }

  /** The vectors at a position are those of the operation that wrote it last. */
  lemma {:induction false} WrittenStays(shape: Shape, nLayers: nat, ops: seq<Op>, i: nat, l: nat, p: nat)
    requires WrittenBy(shape, nLayers, ops, i, l, p)
    ensures p < |RunOriginals(shape, nLayers, ops)[l]|
    ensures RunOriginals(shape, nLayers, ops)[l][p] == (ops[i].k, ops[i].v)
  {
    hide Filled;
    var init := ops[..|ops| - 1];
    FilledIsLength(shape, nLayers, init, l);
    if i == |ops| - 1 {
    } else {
      WrittenByPrefix(shape, nLayers, ops, i, l, p);
      WrittenStays(shape, nLayers, init, i, l, p);
    }
  }

  /** Every filled position was written by some operation that nothing later undid. */
  lemma {:induction false} FilledIsWritten(shape: Shape, nLayers: nat, ops: seq<Op>, l: nat, p: nat) returns (i: nat)
    requires l < nLayers && p < Filled(shape, nLayers, ops, l)
    ensures WrittenBy(shape, nLayers, ops, i, l, p)
  {
    var init := ops[..|ops| - 1];
    if p < Filled(shape, nLayers, init, l) {
      i := FilledIsWritten(shape, nLayers, init, l, p);
      WrittenByPrefix(shape, nLayers, ops, i, l, p);
    } else {
      i := |ops| - 1;
    }
  }

  /** What the cache holds where: the vectors appended there last, if nothing has cut them off since. */
  lemma SurvivorsAreLastWritten(shape: Shape, nLayers: nat, ops: seq<Op>, l: nat, p: nat)
    requires l < nLayers
    ensures p < |RunOriginals(shape, nLayers, ops)[l]| <==> exists i: nat :: WrittenBy(shape, nLayers, ops, i, l, p)
    ensures forall i: nat :: WrittenBy(shape, nLayers, ops, i, l, p) ==>
      p < |RunOriginals(shape, nLayers, ops)[l]| && RunOriginals(shape, nLayers, ops)[l][p] == (ops[i].k, ops[i].v)
  {
    hide RunOriginals, Filled, WrittenBy;
    FilledIsLength(shape, nLayers, ops, l);
    if p < Filled(shape, nLayers, ops, l) {
      var i := FilledIsWritten(shape, nLayers, ops, l, p);
    }
    forall i: nat | WrittenBy(shape, nLayers, ops, i, l, p)
      ensures p < |RunOriginals(shape, nLayers, ops)[l]|
           && i < |ops| && ops[i].Append? && RunOriginals(shape, nLayers, ops)[l][p] == (ops[i].k, ops[i].v)
    {
      WrittenAppend(shape, nLayers, ops, i, l, p);
      WrittenStays(shape, nLayers, ops, i, l, p);
    }
  }

  lemma WrittenAppend(shape: Shape, nLayers: nat, ops: seq<Op>, i: nat, l: nat, p: nat)
    requires WrittenBy(shape, nLayers, ops, i, l, p)
    ensures i < |ops| && ops[i].Append?
  {
  }

  predicate OnlyAppends(ops: seq<Op>) {
    forall i :: 0 <= i < |ops| ==> ops[i].Append?
  }

  lemma {:induction false} AppendsGrow(shape: Shape, cs: Cache<real>, ops: seq<Op>)
    requires OnlyAppends(ops)
    ensures forall l :: 0 <= l < |cs| ==> cs[l] <= RunFrom(shape, cs, ops)[l]
  {
    hide Codes, CacheCodec;
    if ops != [] {
      AppendsGrow(shape, cs, ops[..|ops| - 1]);
    }
  }

  /**
    A checkpoint taken with all layers at `position` undoes any appends made since,
    however unevenly they fell on the layers.
    */
  lemma RollbackUndoesAppends(shape: Shape, cs: Cache<real>, ops: seq<Op>, position: nat)
    requires OnlyAppends(ops)
    requires forall l :: 0 <= l < |cs| ==> |cs[l]| == position
    ensures RunFrom(shape, cs, ops + [Rollback(position)]) == cs
  {
    assert (ops + [Rollback(position)])[..|ops|] == ops;
    AppendsGrow(shape, cs, ops);
    var grown := RunFrom(shape, cs, ops);
    forall l | 0 <= l < |cs| ensures Truncate(grown[l], position) == cs[l] {
      assert grown[l][..position] == cs[l];
    }
    hide RunFrom;
    assert StepStores(shape, grown, Rollback(position)) == cs;
  }
}
