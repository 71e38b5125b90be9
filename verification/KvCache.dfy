/**
  The per-layer key/value cache: flat code vectors with one scale per position,
  appended, truncated and cleared in place.
  */
module KvCache {
  import opened Wrappers
  import opened Transformer

  const USIZE_MAX: nat := 0xFFFF_FFFF_FFFF_FFFF

  /** One layer: `kvDim` codes per position, one scale per position, for keys and for values. */
  datatype LayerKV<F> = LayerKV(kCodes: seq<int>, kScales: seq<F>, vCodes: seq<int>, vScales: seq<F>)

  predicate Shaped<F>(layer: LayerKV<F>, kvDim: nat) {
    && |layer.kCodes| == |layer.kScales| * kvDim
    && |layer.vCodes| == |layer.vScales| * kvDim
    && |layer.vScales| == |layer.kScales|
  }

  // ---------------------------------------------------------------------------
  // Flat vectors read as rows
  // ---------------------------------------------------------------------------

  lemma RowBound(p: nat, n: nat, d: nat)
    requires p < n
    ensures 0 <= p * d <= p * d + d <= n * d
  {
    assert (p + 1) * d <= n * d;
  }

  /** Row `p` of `n` rows of width `d` stored back to back. */
  function RowOf<T>(flat: seq<T>, d: nat, n: nat, p: nat): (r: seq<T>)
    requires p < n && |flat| == n * d
    ensures |r| == d
  {
    RowBound(p, n, d);
    flat[p * d..p * d + d]
  }

  function Rows<F>(layer: LayerKV<F>, d: nat): (s: seq<KV<F>>)
    requires Shaped(layer, d)
    ensures |s| == |layer.kScales|
  {
    var n := |layer.kScales|;
    seq(n, p requires 0 <= p < n =>
      KV(Row(RowOf(layer.kCodes, d, n, p), layer.kScales[p]),
         Row(RowOf(layer.vCodes, d, n, p), layer.vScales[p])))
  }

  lemma RowOfAppend<T>(flat: seq<T>, more: seq<T>, d: nat, n: nat)
    requires |flat| == n * d && |more| == d
    ensures |flat + more| == (n + 1) * d
    ensures forall p :: 0 <= p < n ==> RowOf(flat + more, d, n + 1, p) == RowOf(flat, d, n, p)
    ensures RowOf(flat + more, d, n + 1, n) == more
  {
    assert (n + 1) * d == n * d + d;
    forall p | 0 <= p < n ensures RowOf(flat + more, d, n + 1, p) == RowOf(flat, d, n, p) {
      RowBound(p, n, d);
      assert (flat + more)[p * d..p * d + d] == flat[p * d..p * d + d];
    }
    assert (flat + more)[n * d..n * d + d] == more;
  }

  lemma MulMonotone(n: nat, k: nat, d: nat)
    requires n <= k
    ensures n * d <= k * d
  {
  }

  lemma SliceOfTake<T>(flat: seq<T>, e: nat, lo: nat, hi: nat)
    requires lo <= hi <= e <= |flat|
    ensures flat[..e][lo..hi] == flat[lo..hi]
  {
  }

  lemma RowOfTake<T>(flat: seq<T>, d: nat, n: nat, k: nat)
    requires |flat| == n * d && k <= n
    ensures k * d <= |flat|
    ensures forall p :: 0 <= p < k ==> RowOf(flat[..k * d], d, k, p) == RowOf(flat, d, n, p)
  {
    MulMonotone(k, n, d);
    var e := k * d;
    forall p | 0 <= p < k ensures RowOf(flat[..e], d, k, p) == RowOf(flat, d, n, p) {
      RowBound(p, k, d);
      SliceOfTake(flat, e, p * d, p * d + d);
    }
  }

  lemma RowsAppend<F>(layer: LayerKV<F>, k: Row<F>, v: Row<F>, d: nat)
    requires Shaped(layer, d) && |k.codes| == |v.codes| == d
    ensures var layer' := LayerKV(layer.kCodes + k.codes, layer.kScales + [k.scale], layer.vCodes + v.codes, layer.vScales + [v.scale]);
            Shaped(layer', d) && Rows(layer', d) == Rows(layer, d) + [KV(k, v)]
  {
    var n := |layer.kScales|;
    RowOfAppend(layer.kCodes, k.codes, d, n);
    RowOfAppend(layer.vCodes, v.codes, d, n);
  }

  function Truncate<T>(s: seq<T>, n: nat): seq<T> {
    if n < |s| then s[..n] else s
  }

  function TruncateLayer<F>(layer: LayerKV<F>, position: nat, d: nat): LayerKV<F> {
    LayerKV(Truncate(layer.kCodes, position * d), Truncate(layer.kScales, position),
            Truncate(layer.vCodes, position * d), Truncate(layer.vScales, position))
  }

  lemma TruncateCodes(codes: seq<int>, d: nat, n: nat, position: nat)
    requires |codes| == n * d
    ensures var k := if position < n then position else n;
            && |Truncate(codes, position * d)| == k * d
            && forall p :: 0 <= p < k ==> RowOf(Truncate(codes, position * d), d, k, p) == RowOf(codes, d, n, p)
  {
    if position < n {
      RowOfTake(codes, d, n, position);
      if position * d == n * d {
        assert codes[..position * d] == codes;
      }
    } else {
      MulMonotone(n, position, d);
    }
  }

  lemma RowsTruncate<F>(layer: LayerKV<F>, position: nat, d: nat)
    requires Shaped(layer, d)
    ensures var layer' := TruncateLayer(layer, position, d);
            Shaped(layer', d) && Rows(layer', d) == Truncate(Rows(layer, d), position)
  {
    TruncateCodes(layer.kCodes, d, |layer.kScales|, position);
    TruncateCodes(layer.vCodes, d, |layer.vScales|, position);
  }

  // ---------------------------------------------------------------------------
  // Reading a layer back
  // ---------------------------------------------------------------------------

  /** The flat dequantised vector: code `i` times the scale of its position. */
  function Dequantised<F>(codec: Codec<F>, codes: seq<int>, scales: seq<F>, d: nat): (flat: seq<F>)
    requires |codes| == |scales| * d
    ensures |flat| == |codes|
  {
    seq(|codes|, i requires 0 <= i < |codes| =>
      PositionOf(i, |scales|, d); codec.dequantise(codes[i], scales[i / d]))
  }

  lemma MulAtLeast(x: int, d: nat)
    ensures x >= 1 ==> x * d >= d
    ensures x <= -1 ==> x * d + d <= 0
  {
  }

  /** Element `j` of row `p` sits at a flat index whose quotient by the width is `p`. */
  lemma PositionAt(p: nat, j: nat, d: nat)
    requires j < d
    ensures (p * d + j) / d == p && (p * d + j) % d == j
  {
    var i := p * d + j;
    var q, r := i / d, i % d;
    assert i == q * d + r;
    assert (q - p) * d == j - r;
    MulAtLeast(q - p, d);
  }

  lemma PositionOf(i: nat, n: nat, d: nat)
    requires i < n * d
    ensures d > 0 && i / d < n
  {
    if d > 0 {
      var q, r := i / d, i % d;
      assert i == q * d + r;
      assert (n - q) * d > r;
      MulAtLeast(n - q, d);
    }
  }

  /** The flat vector, cut into rows, is the stored rows read back one by one. */
  lemma DequantisedRows<F>(codec: Codec<F>, codes: seq<int>, scales: seq<F>, d: nat, p: nat)
    requires |codes| == |scales| * d && p < |scales|
    ensures RowOf(Dequantised(codec, codes, scales, d), d, |scales|, p)
         == ReadRow(codec, Row(RowOf(codes, d, |scales|, p), scales[p]))
  {
    RowBound(p, |scales|, d);
    forall j | 0 <= j < d
      ensures RowOf(Dequantised(codec, codes, scales, d), d, |scales|, p)[j]
           == codec.dequantise(codes[p * d + j], scales[p])
    {
      PositionAt(p, j, d);
    }
  }

  /** A flat buffer of `n` rows as attention walks it. */
  function Windows<F>(flat: seq<F>, d: nat, n: nat): (w: seq<seq<F>>)
    requires |flat| == n * d
    ensures |w| == n
  {
    seq(n, p requires 0 <= p < n => RowOf(flat, d, n, p))
  }

  // ---------------------------------------------------------------------------
  // The cache
  // ---------------------------------------------------------------------------

  /** Total of `f(0) + ... + f(n - 1)`, the bytes of the first `n` layers. */
  function LayerBytes<F>(layers: seq<LayerKV<F>>, n: nat): nat
    requires n <= |layers|
  {
    if n == 0 then 0 else
    var l := layers[n - 1];
    LayerBytes(layers, n - 1) + |l.kCodes| + |l.vCodes| + (|l.kScales| + |l.vScales|) * 4
  }

  ghost function AllRows<F>(layers: seq<LayerKV<F>>, d: nat): (cs: Cache<F>)
    requires forall l :: 0 <= l < |layers| ==> Shaped(layers[l], d)
    ensures |cs| == |layers| && forall l :: 0 <= l < |layers| ==> cs[l] == Rows(layers[l], d)
  {
    seq(|layers|, l requires 0 <= l < |layers| => Rows(layers[l], d))
  }

  class KVCache<F(!new)> {
    const nLayers: nat
    const kvDim: nat
    const maxSeqLen: nat
    const codec: Codec<F>
    const zero: F
    var layers: seq<LayerKV<F>>

    ghost predicate Valid()
      reads this
    {
      && |layers| == nLayers
      && (forall x: seq<F> :: |codec.quantise(x).codes| == |x|)
      && forall l :: 0 <= l < |layers| ==> Shaped(layers[l], kvDim) && |layers[l].kScales| <= maxSeqLen
    }

    /** The stored rows, layer by layer. */
    ghost function Contents(): (cs: Cache<F>)
      reads this
      requires Valid()
      ensures |cs| == nLayers && Fits(maxSeqLen, cs)
    {
      AllRows(layers, kvDim)
    }

    constructor (nLayers: nat, kvDim: nat, maxSeqLen: nat, codec: Codec<F>, zero: F)
      requires maxSeqLen * kvDim <= USIZE_MAX
      requires forall x: seq<F> :: |codec.quantise(x).codes| == |x|
      ensures Valid() && Contents() == EmptyStores(nLayers)
      ensures this.nLayers == nLayers && this.kvDim == kvDim && this.maxSeqLen == maxSeqLen
      ensures this.codec == codec && this.zero == zero
    {
      this.nLayers := nLayers;
      this.kvDim := kvDim;
      this.maxSeqLen := maxSeqLen;
      this.codec := codec;
      this.zero := zero;
      this.layers := seq(nLayers, _ => LayerKV([], [], [], []));
      new;
      assert Contents() == EmptyStores(nLayers);
    }

    /** An empty cache, refused exactly when a layer's codes would overflow the address space. */
    static method TryNew(nLayers: nat, kvDim: nat, maxSeqLen: nat, codec: Codec<F>, zero: F) returns (r: Option<KVCache<F>>)
      requires forall x: seq<F> :: |codec.quantise(x).codes| == |x|
      ensures r.Some? <==> maxSeqLen * kvDim <= USIZE_MAX
      ensures r.Some? ==> fresh(r.value) && r.value.Valid() && r.value.Contents() == EmptyStores(nLayers)
      ensures r.Some? ==> r.value.nLayers == nLayers && r.value.kvDim == kvDim && r.value.maxSeqLen == maxSeqLen
      ensures r.Some? ==> r.value.codec == codec && r.value.zero == zero
    {
      if maxSeqLen * kvDim > USIZE_MAX { return None; }
      var cache := new KVCache(nLayers, kvDim, maxSeqLen, codec, zero);
      r := Some(cache);
    }

    /** The length of layer 0; all layers agree between calls. */
    function Position(): nat
      reads this
    {
      if layers == [] then 0 else |layers[0].kScales|
    }

    /** All layers hold `n` positions. */
    ghost predicate InSync(n: nat)
      reads this
    {
      forall l :: 0 <= l < |layers| ==> |layers[l].kScales| == n
    }

    /**
      The check before a multi-token append: shape, synchronisation and capacity, all
      before any layer is touched.
      */
    method ValidateAppend(modelLayers: nat, modelKvDim: nat, count: nat) returns (r: Option<nat>)
      requires Valid()
      ensures r.Some? <==>
              && nLayers == modelLayers && kvDim == modelKvDim
              && InSync(Position())
              && Position() * kvDim <= USIZE_MAX && Position() + count <= USIZE_MAX
              && Position() + count <= maxSeqLen
      ensures r.Some? ==> r.value == Position()
    {
      if nLayers != modelLayers || |layers| != modelLayers { return None; }
      if kvDim != modelKvDim { return None; }
      var position := Position();
      var codesLen := position * modelKvDim;
      if codesLen > USIZE_MAX { return None; }
      var i := 0;
      while i < |layers|
        invariant 0 <= i <= |layers|
        invariant forall l :: 0 <= l < i ==> |layers[l].kScales| == position
      {
        var layer := layers[i];
        if |layer.kScales| != position || |layer.vScales| != position
          || |layer.kCodes| != codesLen || |layer.vCodes| != codesLen {
          assert |layers[i].kScales| != position;
          return None;
        }
        i := i + 1;
      }
      var end := position + count;
      if end > USIZE_MAX || end > maxSeqLen { return None; }
      return Some(position);
    }

    /** Quantise and store one key and value in one layer; refused past capacity. */
    method Append(l: nat, k: seq<F>, v: seq<F>) returns (ok: bool)
      requires Valid()
      modifies this
      ensures Valid()
      ensures ok <==> l < nLayers && |k| == |v| == kvDim && |old(Contents())[l]| < maxSeqLen
      ensures !ok ==> layers == old(layers)
      ensures ok ==>
                Contents() == old(Contents())[l := old(Contents())[l] + [KV(codec.quantise(k), codec.quantise(v))]]
    {
      if l >= nLayers { return false; }
      if |k| != kvDim || |v| != kvDim { return false; }
      var layer := layers[l];
      if |layer.kScales| >= maxSeqLen { return false; }
      var kRow := codec.quantise(k);
      var vRow := codec.quantise(v);
      RowsAppend(layer, kRow, vRow, kvDim);
      layers := layers[l := LayerKV(layer.kCodes + kRow.codes, layer.kScales + [kRow.scale],
                                    layer.vCodes + vRow.codes, layer.vScales + [vRow.scale])];
      return true;
    }

    /** Dequantise a whole layer into flat buffers. */
    method ReadInto(l: nat) returns (r: Option<(seq<F>, seq<F>)>)
      requires Valid()
      ensures r.Some? <==> l < nLayers
      ensures r.Some? ==>
                var n := |Contents()[l]|;
                && |r.value.0| == |r.value.1| == n * kvDim
                && Windows(r.value.0, kvDim, n) == Keys(codec, Contents()[l])
                && Windows(r.value.1, kvDim, n) == Values(codec, Contents()[l])
    {
      if l >= nLayers { return None; }
      var layer := layers[l];
      var n := |layer.kScales|;
      var len := n * kvDim;
      var outK := seq(len, _ => zero);
      var outV := seq(len, _ => zero);
      var p := 0;
      while p < n
        invariant 0 <= p <= n && p * kvDim <= len
        invariant |outK| == |outV| == len
        invariant forall i :: 0 <= i < p * kvDim ==> outK[i] == Dequantised(codec, layer.kCodes, layer.kScales, kvDim)[i]
        invariant forall i :: 0 <= i < p * kvDim ==> outV[i] == Dequantised(codec, layer.vCodes, layer.vScales, kvDim)[i]
      {
        var base := p * kvDim;
        RowBound(p, n, kvDim);
        var d := 0;
        while d < kvDim
          invariant 0 <= d <= kvDim && base + kvDim <= len
          invariant |outK| == |outV| == len
          invariant forall i :: 0 <= i < base + d ==> outK[i] == Dequantised(codec, layer.kCodes, layer.kScales, kvDim)[i]
          invariant forall i :: 0 <= i < base + d ==> outV[i] == Dequantised(codec, layer.vCodes, layer.vScales, kvDim)[i]
        {
          PositionAt(p, d, kvDim);
          outK := outK[base + d := codec.dequantise(layer.kCodes[base + d], layer.kScales[p])];
          outV := outV[base + d := codec.dequantise(layer.vCodes[base + d], layer.vScales[p])];
          d := d + 1;
        }
        assert (p + 1) * kvDim == base + kvDim;
        p := p + 1;
      }
      assert outK == Dequantised(codec, layer.kCodes, layer.kScales, kvDim);
      assert outV == Dequantised(codec, layer.vCodes, layer.vScales, kvDim);
      forall p | 0 <= p < n
        ensures Windows(outK, kvDim, n)[p] == Keys(codec, Rows(layer, kvDim))[p]
        ensures Windows(outV, kvDim, n)[p] == Values(codec, Rows(layer, kvDim))[p]
      {
        DequantisedRows(codec, layer.kCodes, layer.kScales, kvDim, p);
        DequantisedRows(codec, layer.vCodes, layer.vScales, kvDim, p);
      }
      return Some((outK, outV));
    }

    /** Drop every entry at or after `position`, in every layer, whatever its length. */
    method Rollback(position: nat)
      requires Valid()
      modifies this
      ensures Valid()
      ensures forall l :: 0 <= l < nLayers ==> Contents()[l] == Truncate(old(Contents())[l], position)
    {
      ghost var was := layers;
      var i := 0;
      while i < |layers|
        invariant 0 <= i <= |layers| == |was|
        invariant Valid()
        invariant forall l :: 0 <= l < i ==> layers[l] == TruncateLayer(was[l], position, kvDim)
        invariant forall l :: i <= l < |layers| ==> layers[l] == was[l]
      {
        RowsTruncate(layers[i], position, kvDim);
        layers := layers[i := TruncateLayer(layers[i], position, kvDim)];
        i := i + 1;
      }
      forall l | 0 <= l < nLayers ensures Rows(layers[l], kvDim) == Truncate(Rows(was[l], kvDim), position) {
        RowsTruncate(was[l], position, kvDim);
      }
    }

    /** Forget everything. */
    method Reset()
      requires Valid()
      modifies this
      ensures Valid() && Contents() == EmptyStores(nLayers)
    {
      var i := 0;
      while i < |layers|
        invariant 0 <= i <= |layers| == nLayers
        invariant Valid()
        invariant forall l :: 0 <= l < i ==> layers[l] == LayerKV([], [], [], [])
      {
        layers := layers[i := LayerKV([], [], [], [])];
        i := i + 1;
      }
    }

    /** Codes and scales in memory: two vectors of `kvDim` bytes and two four-byte scales per position and layer. */
    method ResidentBytes() returns (total: nat)
      requires Valid()
      ensures total == LayerBytes(layers, |layers|)
      ensures forall n: nat {:trigger InSync(n)} :: InSync(n) ==> total == nLayers * n * (2 * kvDim + 8)
    {
      total := 0;
      var i := 0;
      while i < |layers|
        invariant 0 <= i <= |layers|
        invariant total == LayerBytes(layers, i)
      {
        var l := layers[i];
        total := total + |l.kCodes| + |l.vCodes|;
        total := total + (|l.kScales| + |l.vScales|) * 4;
        i := i + 1;
      }
      forall n: nat | InSync(n) ensures total == nLayers * n * (2 * kvDim + 8) {
        SyncedBytes(layers, kvDim, n, |layers|);
      }
    }
  }

  function EmptyStores<F>(nLayers: nat): Cache<F> {
    seq(nLayers, _ => [])
  }

  lemma {:induction false} SyncedBytes<F>(layers: seq<LayerKV<F>>, kvDim: nat, n: nat, count: nat)
    requires count <= |layers|
    requires forall l :: 0 <= l < |layers| ==> Shaped(layers[l], kvDim) && |layers[l].kScales| == n
    ensures LayerBytes(layers, count) == count * n * (2 * kvDim + 8)
  {
    if count > 0 {
      SyncedBytes(layers, kvDim, n, count - 1);
      BytesStep(count - 1, n, kvDim);
    }
  }

  lemma BytesStep(count: nat, n: nat, kvDim: nat)
    ensures (count + 1) * n * (2 * kvDim + 8) == count * n * (2 * kvDim + 8) + n * kvDim + n * kvDim + (n + n) * 4
  {
    var w := 2 * kvDim + 8;
    assert (count + 1) * n == count * n + n;
    assert (count * n + n) * w == count * n * w + n * w;
    assert n * w == n * (2 * kvDim) + n * 8;
    assert n * (2 * kvDim) == 2 * (n * kvDim);
  }
}
