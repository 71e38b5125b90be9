/**
  The cached forward passes as they run: workspace buffers overwritten in place, keys
  and values appended to the cache layer by layer, and a rollback on any failure. Each
  method is proved against the schedule of `Transformer` that it implements.
  */
module CachedForward {
  import opened Wrappers
  import opened Transformer
  import opened KvCache

  /** What graph validation guarantees about a loaded model. */
  ghost predicate WellFormed<F(!new)>(m: Model<F>) {
    && m.dims.nLayers > 0 && m.dims.kvDim > 0 && m.dims.headDim > 0 && m.dims.groupSize > 0
    && m.dims.nHeads % m.dims.groupSize == 0
    && m.dims.nEmbd == m.dims.nHeads * m.dims.headDim
    && m.dims.kvDim == m.dims.nHeads / m.dims.groupSize * m.dims.headDim
    && (forall s: seq<F> :: |m.softmax(s)| == |s|)
    && (forall l: nat, x: seq<F> :: m.qkv(l, x).Some? ==>
          var p := m.qkv(l, x).value;
          |p.q| == m.dims.nEmbd && |p.k| == m.dims.kvDim && |p.v| == m.dims.kvDim)
    && (forall x: seq<F>, pos: nat :: |m.ropeQ(x, pos)| == |x|)
    && (forall x: seq<F>, pos: nat :: |m.ropeK(x, pos)| == |x|)
    && (forall h: seq<F> :: m.predict(h).Some? ==> m.predict(h).value < m.dims.vocabSize)
  }

  /** The cache was made for this model. */
  ghost predicate Matches<F(!new)>(cache: KVCache<F>, m: Model<F>) {
    cache.nLayers == m.dims.nLayers && cache.kvDim == m.dims.kvDim && cache.codec == m.codec
  }

  // ---------------------------------------------------------------------------
  // Attention over flat buffers
  // ---------------------------------------------------------------------------

  method DotF32<F>(m: Model<F>, a: seq<F>, b: seq<F>) returns (s: F)
    requires |a| == |b|
    ensures s == Dot(m, a, b)
  {
    s := m.zero;
    var i := 0;
    while i < |a|
      invariant 0 <= i <= |a|
      invariant s == DotPrefix(m, a, b, i)
    {
      s := m.add(s, m.mul(a[i], b[i]));
      i := i + 1;
    }
  }

  lemma KvHeadFits<F(!new)>(m: Model<F>, h: nat)
    requires WellFormed(m) && h < m.dims.nHeads
    ensures KvOffset(m.dims, h) + m.dims.headDim <= m.dims.kvDim
  {
    var g, heads := h / m.dims.groupSize, m.dims.nHeads / m.dims.groupSize;
    assert m.dims.nHeads == heads * m.dims.groupSize;
    PositionOf(h, heads, m.dims.groupSize);
    RowBound(g, heads, m.dims.headDim);
  }

  /** A head's slice of a cached row, taken from the flat buffer or from the row. */
  lemma HeadSlice<F>(flat: seq<F>, d: nat, n: nat, p: nat, lo: nat, len: nat)
    requires |flat| == n * d && p < n && lo + len <= d
    ensures 0 <= p * d + lo <= p * d + lo + len <= |flat|
    ensures flat[p * d + lo..p * d + lo + len] == Span(Windows(flat, d, n)[p], lo, len)
  {
    RowBound(p, n, d);
    SliceOfSlice(flat, p * d, p * d + d, lo, lo + len);
  }

  lemma SliceOfSlice<T>(s: seq<T>, a: nat, b: nat, lo: nat, hi: nat)
    requires a <= b <= |s| && lo <= hi <= b - a
    ensures s[a..b][lo..hi] == s[a + lo..a + hi]
  {
    assert |s[a..b][lo..hi]| == |s[a + lo..a + hi]|;
    forall i | 0 <= i < hi - lo ensures s[a..b][lo..hi][i] == s[a + lo..a + hi][i] {
      assert s[a..b][lo..hi][i] == s[a..b][lo + i] == s[a + (lo + i)];
    }
  }

  lemma HeadOutput<F>(m: Model<F>, q: seq<F>, ks: seq<seq<F>>, vs: seq<seq<F>>, h: nat, j: nat)
    requires m.dims.groupSize > 0 && h < m.dims.nHeads && j < m.dims.headDim
    ensures h * m.dims.headDim + j < m.dims.nHeads * m.dims.headDim
    ensures Attend(m, q, ks, vs)[h * m.dims.headDim + j] == AttendAt(m, q, ks, vs, h, j)
  {
    hide AttendAt;
    var hd := m.dims.headDim;
    RowBound(h, m.dims.nHeads, hd);
    PositionAt(h, j, hd);
  }

  /** Element `lo..lo + len` of row `p` of a flat buffer. */
  method SliceRow<F>(flat: seq<F>, d: nat, n: nat, p: nat, lo: nat, len: nat) returns (r: seq<F>)
    requires |flat| == n * d && p < n && lo + len <= d
    ensures |r| == len && r == Span(Windows(flat, d, n)[p], lo, len)
    ensures forall j :: 0 <= j < len ==> r[j] == Windows(flat, d, n)[p][lo + j]
  {
    HeadSlice(flat, d, n, p, lo, len);
    var base := p * d + lo;
    r := flat[base..base + len];
  }

  /** Scores of one head of one query against the first `nPast` rows. */
  method HeadScores<F>(m: Model<F>, q: seq<F>, qH: seq<F>, cachedK: seq<F>, rows: nat, nPast: nat, h: nat) returns (scores: seq<F>)
    requires m.dims.groupSize > 0 && KvOffset(m.dims, h) + m.dims.headDim <= m.dims.kvDim
    requires |qH| == m.dims.headDim && qH == Span(q, h * m.dims.headDim, m.dims.headDim)
    requires nPast <= rows && |cachedK| == rows * m.dims.kvDim
    ensures scores == Scores(m, q, Windows(cachedK, m.dims.kvDim, rows)[..nPast], h)
  {
    hide Dot;
    ghost var ks := Windows(cachedK, m.dims.kvDim, rows)[..nPast];
    scores := [];
    var p := 0;
    while p < nPast
      invariant 0 <= p <= nPast && |scores| == p
      invariant forall i :: 0 <= i < p ==> scores[i] == Scores(m, q, ks, h)[i]
    {
      var kH := SliceRow(cachedK, m.dims.kvDim, rows, p, KvOffset(m.dims, h), m.dims.headDim);
      var dot := DotF32(m, qH, kH);
      scores := scores + [m.mul(dot, m.attnScale)];
      p := p + 1;
    }
  }

  /** Add one weighted value row to a head's output, element by element. */
  method AddWeighted<F>(m: Model<F>, outH: seq<F>, weight: F, vH: seq<F>) returns (r: seq<F>)
    requires |outH| == |vH|
    ensures |r| == |outH| && forall j :: 0 <= j < |outH| ==> r[j] == m.add(outH[j], m.mul(weight, vH[j]))
  {
    r := outH;
    var j := 0;
    while j < |outH|
      invariant 0 <= j <= |outH| == |r|
      invariant forall i :: 0 <= i < j ==> r[i] == m.add(outH[i], m.mul(weight, vH[i]))
      invariant forall i :: j <= i < |outH| ==> r[i] == outH[i]
    {
      r := r[j := m.add(r[j], m.mul(weight, vH[j]))];
      j := j + 1;
    }
  }

  /** The weighted sum of one head's slice of the first `nPast` value rows. */
  method MixHead<F>(m: Model<F>, w: seq<F>, cachedV: seq<F>, rows: nat, nPast: nat, off: nat) returns (outH: seq<F>)
    requires off + m.dims.headDim <= m.dims.kvDim
    requires |w| == nPast <= rows && |cachedV| == rows * m.dims.kvDim
    ensures |outH| == m.dims.headDim
    ensures forall j :: 0 <= j < |outH| ==> outH[j] == Mix(m, w, Windows(cachedV, m.dims.kvDim, rows)[..nPast], off + j, nPast)
  {
    ghost var vs := Windows(cachedV, m.dims.kvDim, rows)[..nPast];
    outH := seq(m.dims.headDim, _ => m.zero);
    var p := 0;
    while p < nPast
      invariant 0 <= p <= nPast && |outH| == m.dims.headDim
      invariant forall j :: 0 <= j < |outH| ==> outH[j] == Mix(m, w, vs, off + j, p)
    {
      var vH := SliceRow(cachedV, m.dims.kvDim, rows, p, off, m.dims.headDim);
      outH := AddWeighted(m, outH, w[p], vH);
      p := p + 1;
    }
  }

  /** One head of one query over the first `nPast` rows of the flat buffers. */
  method AttendHead<F(!new)>(m: Model<F>, q: seq<F>, cachedK: seq<F>, cachedV: seq<F>, rows: nat, nPast: nat, h: nat)
      returns (outH: seq<F>)
    requires WellFormed(m) && h < m.dims.nHeads && |q| == m.dims.nEmbd
    requires nPast <= rows && |cachedK| == |cachedV| == rows * m.dims.kvDim
    ensures |outH| == m.dims.headDim
    ensures var ks, vs := Windows(cachedK, m.dims.kvDim, rows)[..nPast], Windows(cachedV, m.dims.kvDim, rows)[..nPast];
            forall j :: 0 <= j < m.dims.headDim ==> outH[j] == AttendAt(m, q, ks, vs, h, j)
  {
    hide Mix, Scores;
    var hd := m.dims.headDim;
    KvHeadFits(m, h);
    RowBound(h, m.dims.nHeads, hd);
    var scores := HeadScores(m, q, q[h * hd..h * hd + hd], cachedK, rows, nPast, h);
    var w := m.softmax(scores);
    outH := MixHead(m, w, cachedV, rows, nPast, KvOffset(m.dims, h));
  }

  /** All heads. Rows past `nPast` may be in the buffers; they are not read. */
  method ScaledDotProductAttention<F(!new)>(m: Model<F>, q: seq<F>, cachedK: seq<F>, cachedV: seq<F>, rows: nat, nPast: nat)
      returns (attnOut: seq<F>)
    requires WellFormed(m) && |q| == m.dims.nEmbd
    requires nPast <= rows && |cachedK| == |cachedV| == rows * m.dims.kvDim
    ensures attnOut == Attend(m, q, Windows(cachedK, m.dims.kvDim, rows)[..nPast], Windows(cachedV, m.dims.kvDim, rows)[..nPast])
  {
    hide AttendAt;
    ghost var ks, vs := Windows(cachedK, m.dims.kvDim, rows)[..nPast], Windows(cachedV, m.dims.kvDim, rows)[..nPast];
    var hd := m.dims.headDim;
    attnOut := [];
    var h := 0;
    while h < m.dims.nHeads
      invariant 0 <= h <= m.dims.nHeads && |attnOut| == h * hd <= |Attend(m, q, ks, vs)|
      invariant forall i :: 0 <= i < h * hd ==> attnOut[i] == Attend(m, q, ks, vs)[i]
    {
      var outH := AttendHead(m, q, cachedK, cachedV, rows, nPast, h);
      RowBound(h, m.dims.nHeads, hd);
      forall i | h * hd <= i < h * hd + hd ensures (attnOut + outH)[i] == Attend(m, q, ks, vs)[i] {
        HeadOutput(m, q, ks, vs, h, i - h * hd);
      }
      attnOut := attnOut + outH;
      assert (h + 1) * hd == h * hd + hd;
      h := h + 1;
    }
  }

  // ---------------------------------------------------------------------------
  // One token
  // ---------------------------------------------------------------------------

  /** Buffers reused by every single-token forward. */
  class ForwardWorkspace<F(!new)> {
    var hidden: seq<F>
    var scratchK: seq<F>
    var scratchV: seq<F>
    var xNorm: seq<F>
    var q: seq<F>
    var k: seq<F>
    var v: seq<F>
    var attnOut: seq<F>
    var subNormed: seq<F>
    var fused: seq<F>

    constructor ()
    {
      hidden, scratchK, scratchV, xNorm, q, k, v, attnOut, subNormed, fused := [], [], [], [], [], [], [], [], [], [];
    }
  }

  /** `after` keeps every row of `before`, layer by layer. */
  ghost predicate Extends<F(!new)>(before: Cache<F>, after: Cache<F>) {
    |before| == |after| && forall l :: 0 <= l < |before| ==> before[l] <= after[l]
  }

  /** Element-wise update of the first buffer by the second, as the residual loops do it. */
  method ZipInto<F>(f: (F, F) -> F, x: seq<F>, y: seq<F>) returns (z: seq<F>)
    ensures z == ZipWith(f, x, y)
  {
    z := x;
    var d := 0;
    while d < |x|
      invariant 0 <= d <= |x| == |z|
      invariant forall i :: 0 <= i < d ==> z[i] == ZipWith(f, x, y)[i]
      invariant forall i :: d <= i < |x| ==> z[i] == x[i]
    {
      if d < |y| {
        z := z[d := f(z[d], y[d])];
      }
      d := d + 1;
    }
  }

  /** Norm, project, rotate and store one token in one layer. */
  method ProjectQkvAndAppend<F(!new)>(m: Model<F>, l: nat, cache: KVCache<F>, ws: ForwardWorkspace<F>, position: nat)
      returns (ok: bool)
    requires WellFormed(m) && cache.Valid() && Matches(cache, m) && l < m.dims.nLayers
    modifies cache, ws
    ensures cache.Valid() && ws.hidden == old(ws.hidden)
    ensures var p := Project(m, l, position, ws.hidden); var s := old(cache.Contents())[l];
            && (ok <==> p.Some? && |s| < cache.maxSeqLen)
            && (!ok ==> cache.layers == old(cache.layers))
            && (ok ==>
                  && ws.q == p.value.q && |ws.q| == m.dims.nEmbd
                  && cache.Contents() == old(cache.Contents())[l := s + [Store(m, p.value.k, p.value.v)]])
  {
    hide RoundTrip, Rows;
    ws.xNorm := m.attnNorm(l, ws.hidden);
    var p := m.qkv(l, ws.xNorm);
    if p.None? { return false; }
    ws.q, ws.k, ws.v := p.value.q, p.value.k, p.value.v;
    ws.q := m.ropeQ(ws.q, position);
    ws.k := m.ropeK(ws.k, position);
    ok := cache.Append(l, ws.k, ws.v);
  }

  /** Attention, output projection, feed-forward and both residuals, over the rows read back. */
  method FinishOneLayer<F(!new)>(m: Model<F>, l: nat, ws: ForwardWorkspace<F>, nPast: nat) returns (ok: bool)
    requires WellFormed(m) && |ws.q| == m.dims.nEmbd
    requires |ws.scratchK| == |ws.scratchV| == nPast * m.dims.kvDim
    modifies ws
    ensures var y := Finish(m, l, old(ws.hidden), old(ws.q), Windows(old(ws.scratchK), m.dims.kvDim, nPast),
                            Windows(old(ws.scratchV), m.dims.kvDim, nPast));
            (ok <==> y.Some?) && (ok ==> ws.hidden == y.value)
  {
    hide Attend, Windows;
    ghost var ks, vs := Windows(ws.scratchK, m.dims.kvDim, nPast), Windows(ws.scratchV, m.dims.kvDim, nPast);
    assert ks[..nPast] == ks && vs[..nPast] == vs;
    ws.attnOut := ScaledDotProductAttention(m, ws.q, ws.scratchK, ws.scratchV, nPast, nPast);
    ws.subNormed := if m.variant.BitNetSubNorm? then m.attnSubNorm(l, ws.attnOut) else ws.attnOut;
    var projected := m.attnOutput(l, ws.subNormed);
    if projected.None? { return false; }
    ws.hidden := ZipInto(m.add, ws.hidden, projected.value);
    ok := ApplyFfnBlock(m, l, ws);
  }

  method ApplyFfnBlock<F(!new)>(m: Model<F>, l: nat, ws: ForwardWorkspace<F>) returns (ok: bool)
    modifies ws
    ensures var y := FfnHalf(m, l, old(ws.hidden)); (ok <==> y.Some?) && (ok ==> ws.hidden == y.value)
  {
    ws.xNorm := m.ffnNorm(l, ws.hidden);
    var gate := m.ffnGate(l, ws.xNorm);
    if gate.None? { return false; }
    var up := m.ffnUp(l, ws.xNorm);
    if up.None? { return false; }
    ws.fused := ZipInto(m.mul, m.activate(gate.value), up.value);
    var downInput := if m.variant.BitNetSubNorm? then m.ffnSubNorm(l, ws.fused) else ws.fused;
    var down := m.ffnDown(l, downInput);
    if down.None? { return false; }
    ws.hidden := ZipInto(m.add, ws.hidden, down.value);
    ok := m.finite(ws.hidden);
  }

  /** One layer of one token: `LayerStep` on that layer's store. */
  method ForwardOneLayer<F(!new)>(m: Model<F>, l: nat, cache: KVCache<F>, ws: ForwardWorkspace<F>, position: nat)
      returns (ok: bool)
    requires WellFormed(m) && cache.Valid() && Matches(cache, m) && l < m.dims.nLayers
    modifies cache, ws
    ensures cache.Valid()
    ensures Extends(old(cache.Contents()), cache.Contents())
    ensures var step := LayerStep(m, cache.maxSeqLen, l, position, old(ws.hidden), old(cache.Contents())[l]);
            && (ok <==> step.Some?)
            && (ok ==> ws.hidden == step.value.0 && cache.Contents() == old(cache.Contents())[l := step.value.1])
  {
    hide Finish, Project, Rows;
    ok := ProjectQkvAndAppend(m, l, cache, ws, position);
    if !ok { return; }
    var read := cache.ReadInto(l);
    ws.scratchK, ws.scratchV := read.value.0, read.value.1;
    RowCount(|cache.Contents()[l]|, m.dims.kvDim);
    var nPast := |ws.scratchK| / m.dims.kvDim;
    ok := FinishOneLayer(m, l, ws, nPast);
  }

  lemma RowCount(n: nat, d: nat)
    requires d > 0
    ensures n * d / d == n
  {
    PositionAt(n, 0, d);
  }

  // ---------------------------------------------------------------------------
  // All layers, and rollback
  // ---------------------------------------------------------------------------

  /** Truncating grown layers to the length they all had undoes the growth. */
  lemma RollbackRestores<F(!new)>(before: Cache<F>, grown: Cache<F>, after: Cache<F>, position: nat)
    requires Extends(before, grown) && |after| == |before|
    requires forall l :: 0 <= l < |before| ==> |before[l]| == position
    requires forall l :: 0 <= l < |after| ==> after[l] == Truncate(grown[l], position)
    ensures after == before
  {
    forall l | 0 <= l < |before| ensures after[l] == before[l] {
      assert before[l] <= grown[l] && grown[l][..position] == before[l];
    }
  }

  ghost predicate Synced<F(!new)>(cs: Cache<F>, position: nat) {
    forall l :: 0 <= l < |cs| ==> |cs[l]| == position
  }

  /** What the column from layer `l` on still has to do, given what the layers before it left. */
  ghost function ColumnRest<F>(m: Model<F>, cap: nat, l: nat, pos: nat, x: seq<F>, now: Cache<F>): Option<(seq<F>, Cache<F>)>
    requires l <= |now|
  {
    match Column(m, cap, l, pos, x, now[l..])
    case None => None
    case Some((y, rest)) => Some((y, now[..l] + rest))
  }

  lemma ColumnAdvance<F>(m: Model<F>, cap: nat, l: nat, pos: nat, x: seq<F>, now: Cache<F>)
    requires l < |now|
    ensures ColumnRest(m, cap, l, pos, x, now) ==
            match LayerStep(m, cap, l, pos, x, now[l])
            case None => None
            case Some((y, s)) => ColumnRest(m, cap, l + 1, pos, y, now[l := s])
  {
    hide LayerStep;
    assert now[l..][0] == now[l] && now[l..][1..] == now[l + 1..];
    var step := LayerStep(m, cap, l, pos, x, now[l]);
    if step.Some? {
      var next := now[l := step.value.1];
      assert next[l + 1..] == now[l + 1..];
      var rest := Column(m, cap, l + 1, pos, step.value.0, now[l + 1..]);
      if rest.Some? {
        assert now[..l] + ([step.value.1] + rest.value.1) == next[..l + 1] + rest.value.1;
      }
    }
  }

  /** The layer loop of one token. */
  method ForwardLayers<F(!new)>(m: Model<F>, cache: KVCache<F>, ws: ForwardWorkspace<F>, position: nat) returns (ok: bool)
    requires WellFormed(m) && cache.Valid() && Matches(cache, m)
    modifies cache, ws
    ensures cache.Valid() && Extends(old(cache.Contents()), cache.Contents())
    ensures var run := Column(m, cache.maxSeqLen, 0, position, old(ws.hidden), old(cache.Contents()));
            && (ok <==> run.Some?)
            && (ok ==> ws.hidden == run.value.0 && cache.Contents() == run.value.1)
  {
    hide LayerStep, Rows;
    ghost var before := cache.Contents();
    ghost var x := ws.hidden;
    ghost var cap := cache.maxSeqLen;
    assert before[0..] == before && before[..0] == [];
    var l := 0;
    while l < m.dims.nLayers
      invariant 0 <= l <= m.dims.nLayers
      invariant cache.Valid() && Extends(before, cache.Contents())
      invariant ColumnRest(m, cap, l, position, ws.hidden, cache.Contents()) == ColumnRest(m, cap, 0, position, x, before)
    {
      ColumnAdvance(m, cap, l, position, ws.hidden, cache.Contents());
      ok := ForwardOneLayer(m, l, cache, ws, position);
      if !ok { return; }
      l := l + 1;
    }
    assert cache.Contents()[l..] == [] && cache.Contents()[..l] + [] == cache.Contents();
    ok := true;
  }

  /**
    The cached single-token forward. It succeeds exactly when the inputs are valid and
    `TokenForward` does, with that result; otherwise the cache is as it was.
    */
  method ForwardWithCache<F(!new)>(m: Model<F>, cache: KVCache<F>, ws: ForwardWorkspace<F>, token: nat, position: nat)
      returns (output: Option<seq<F>>)
    requires WellFormed(m) && cache.Valid() && cache.codec == m.codec
    requires Synced(cache.Contents(), cache.Position())
    modifies cache, ws
    ensures cache.Valid()
    ensures var run := TokenForward(m, cache.maxSeqLen, old(cache.Contents()), token, position);
            && (output.Some? <==> Matches(cache, m) && old(cache.Position()) == position && run.Some?)
            && (output.Some? ==> output.value == run.value.0 && cache.Contents() == run.value.1)
    ensures output.None? ==> cache.Contents() == old(cache.Contents())
  {
    hide Column, Rows;
    if cache.kvDim != m.dims.kvDim || cache.nLayers != m.dims.nLayers { return None; }
    if cache.Position() != position || token >= m.dims.vocabSize { return None; }
    var checkpoint := cache.Position();
    ghost var before := cache.Contents();
    var x := m.embed(token);
    if x.None? { return None; }
    ws.hidden := x.value;
    var ok := ForwardLayers(m, cache, ws, position);
    if !ok {
      ghost var grown := cache.Contents();
      cache.Rollback(checkpoint);
      RollbackRestores(before, grown, cache.Contents(), checkpoint);
      return None;
    }
    output := Some(m.outputNorm(ws.hidden));
  }

  // ---------------------------------------------------------------------------
  // Layer-major prefill
  // ---------------------------------------------------------------------------

  /** Token-major buffers for a whole chunk, one row per token. */
  class PrefillWorkspace<F(!new)> {
    var hidden: seq<seq<F>>
    var xNorm: seq<seq<F>>
    var q: seq<seq<F>>
    var k: seq<seq<F>>
    var v: seq<seq<F>>
    var attnOut: seq<seq<F>>
    var gate: seq<seq<F>>
    var up: seq<seq<F>>
    var fused: seq<seq<F>>
    var scratchK: seq<F>
    var scratchV: seq<F>

    ghost predicate Prepared(n: nat)
      reads this
    {
      |hidden| == |xNorm| == |q| == |k| == |v| == |attnOut| == |gate| == |up| == |fused| == n
    }

    constructor ()
    {
      hidden, xNorm, q, k, v, attnOut, gate, up, fused := [], [], [], [], [], [], [], [], [];
      scratchK, scratchV := [], [];
    }

    /** Resize every buffer to `n` rows. */
    method Prepare(n: nat)
      modifies this
      ensures Prepared(n)
    {
      hidden := seq(n, _ => []);
      xNorm, q, k, v, attnOut, gate, up, fused := hidden, hidden, hidden, hidden, hidden, hidden, hidden, hidden;
    }
  }

  /** One token that does not project fails the chunk. */
  lemma {:induction false} ProjectAllFails<F>(m: Model<F>, l: nat, pos: nat, xs: seq<seq<F>>, t: nat)
    requires t < |xs| && Project(m, l, pos + t, xs[t]).None?
    ensures ProjectAll(m, l, pos, xs).None?
  {
    hide Project;
    if t < |xs| - 1 {
      ProjectAllFails(m, l, pos, xs[..|xs| - 1], t);
    }
  }

  /** Token `t` of the chunk, finished against its own window of the filled store. */
  function FinishAt<F>(m: Model<F>, l: nat, base: nat, xs: seq<seq<F>>, ps: seq<Qkv<F>>, ks: seq<seq<F>>, vs: seq<seq<F>>, t: nat): Option<seq<F>>
    requires t < |xs| == |ps| && base + |xs| <= |ks| == |vs|
  {
    Finish(m, l, xs[t], ps[t].q, ks[..base + t + 1], vs[..base + t + 1])
  }

  lemma {:induction false} FinishAllFails<F>(m: Model<F>, l: nat, base: nat, xs: seq<seq<F>>, ps: seq<Qkv<F>>, ks: seq<seq<F>>, vs: seq<seq<F>>, t: nat)
    requires t < |xs| == |ps| && base + |xs| <= |ks| == |vs|
    requires FinishAt(m, l, base, xs, ps, ks, vs, t).None?
    ensures FinishAll(m, l, base, xs, ps, ks, vs).None?
  {
    hide Finish;
    var n := |xs| - 1;
    if t < n {
      FinishAllFails(m, l, base, xs[..n], ps[..n], ks, vs, t);
    }
  }

  lemma {:induction false} FinishAllSucceeds<F>(m: Model<F>, l: nat, base: nat, xs: seq<seq<F>>, ps: seq<Qkv<F>>, ks: seq<seq<F>>, vs: seq<seq<F>>, ys: seq<seq<F>>)
    requires |xs| == |ps| == |ys| && base + |xs| <= |ks| == |vs|
    requires forall t :: 0 <= t < |xs| ==> FinishAt(m, l, base, xs, ps, ks, vs, t) == Some(ys[t])
    ensures FinishAll(m, l, base, xs, ps, ks, vs) == Some(ys)
  {
    hide Finish;
    if xs != [] {
      var n := |xs| - 1;
      forall t | 0 <= t < n
        ensures FinishAt(m, l, base, xs[..n], ps[..n], ks, vs, t) == Some(ys[..n][t])
      {
        assert FinishAt(m, l, base, xs, ps, ks, vs, t) == Some(ys[t]);
      }
      FinishAllSucceeds(m, l, base, xs[..n], ps[..n], ks, vs, ys[..n]);
      assert FinishAt(m, l, base, xs, ps, ks, vs, n) == Some(ys[n]);
      assert ys[..n] + [ys[n]] == ys;
    }
  }

  /** Norm every row of the chunk. */
  method NormRows<F(!new)>(f: (nat, seq<F>) -> seq<F>, l: nat, rows: seq<seq<F>>, into: seq<seq<F>>) returns (r: seq<seq<F>>)
    requires |into| == |rows|
    ensures |r| == |rows| && forall t :: 0 <= t < |rows| ==> r[t] == f(l, rows[t])
  {
    r := into;
    var t := 0;
    while t < |rows|
      invariant 0 <= t <= |rows| == |r|
      invariant forall i :: 0 <= i < t ==> r[i] == f(l, rows[i])
    {
      r := r[t := f(l, rows[t])];
      t := t + 1;
    }
  }

  /** A batched linear layer: every row through the same matrix; any failing row fails the batch. */
  method LinearBatched<F(!new)>(f: (nat, seq<F>) -> Option<seq<F>>, l: nat, rows: seq<seq<F>>, into: seq<seq<F>>)
      returns (ok: bool, r: seq<seq<F>>)
    requires |into| == |rows|
    ensures |r| == |rows|
    ensures ok <==> forall t {:trigger rows[t]} :: 0 <= t < |rows| ==> f(l, rows[t]).Some?
    ensures ok ==> forall t :: 0 <= t < |rows| ==> f(l, rows[t]) == Some(r[t])
  {
    r := into;
    var t := 0;
    while t < |rows|
      invariant 0 <= t <= |rows| == |r|
      invariant forall i :: 0 <= i < t ==> f(l, rows[i]) == Some(r[i])
    {
      var y := f(l, rows[t]);
      if y.None? { return false, r; }
      r := r[t := y.value];
      t := t + 1;
    }
    ok := true;
  }

  /** Project every row; any failing row fails the batch. */
  method QkvBatched<F(!new)>(m: Model<F>, l: nat, rows: seq<seq<F>>) returns (ok: bool, q: seq<seq<F>>, k: seq<seq<F>>, v: seq<seq<F>>)
    ensures ok <==> forall t {:trigger rows[t]} :: 0 <= t < |rows| ==> m.qkv(l, rows[t]).Some?
    ensures ok ==> |q| == |k| == |v| == |rows|
    ensures ok ==> forall t :: 0 <= t < |rows| ==> m.qkv(l, rows[t]) == Some(Qkv(q[t], k[t], v[t]))
  {
    q, k, v := [], [], [];
    var t := 0;
    while t < |rows|
      invariant 0 <= t <= |rows| && |q| == |k| == |v| == t
      invariant forall i :: 0 <= i < t ==> m.qkv(l, rows[i]) == Some(Qkv(q[i], k[i], v[i]))
    {
      var p := m.qkv(l, rows[t]);
      if p.None? { return false, q, k, v; }
      q, k, v := q + [p.value.q], k + [p.value.k], v + [p.value.v];
      t := t + 1;
    }
    ok := true;
  }

  lemma ProjectAllStep<F>(m: Model<F>, l: nat, pos: nat, xs: seq<seq<F>>, t: nat, ps: seq<Qkv<F>>, p: Qkv<F>)
    requires t < |xs|
    requires ProjectAll(m, l, pos, xs[..t]) == Some(ps) && Project(m, l, pos + t, xs[t]) == Some(p)
    ensures ProjectAll(m, l, pos, xs[..t + 1]) == Some(ps + [p])
    ensures StoreAll(m, ps + [p]) == StoreAll(m, ps) + [Store(m, p.k, p.v)]
  {
    hide Project;
    assert xs[..t + 1][..t] == xs[..t];
  }

  /** Rotate one token's query and key and append its key and value. */
  method RotateAndAppend<F(!new)>(m: Model<F>, l: nat, cache: KVCache<F>, q0: seq<F>, k0: seq<F>, v: seq<F>, position: nat)
      returns (q: seq<F>, k: seq<F>)
    requires WellFormed(m) && cache.Valid() && Matches(cache, m) && l < m.dims.nLayers
    requires |q0| == m.dims.nEmbd && |k0| == |v| == m.dims.kvDim && |cache.Contents()[l]| < cache.maxSeqLen
    modifies cache
    ensures cache.Valid() && |q| == |q0| && q == m.ropeQ(q0, position) && k == m.ropeK(k0, position)
    ensures cache.Contents() == old(cache.Contents())[l := old(cache.Contents())[l] + [Store(m, k, v)]]
  {
    hide Rows;
    q := m.ropeQ(q0, position);
    k := m.ropeK(k0, position);
    var ok := cache.Append(l, k, v);
  }

  /** Rotate every token and append it, in order. */
  method AppendChunk<F(!new)>(m: Model<F>, l: nat, cache: KVCache<F>, q0: seq<seq<F>>, k0: seq<seq<F>>, v: seq<seq<F>>, start: nat,
      ghost xs: seq<seq<F>>) returns (q: seq<seq<F>>, k: seq<seq<F>>, ghost ps: seq<Qkv<F>>)
    requires WellFormed(m) && cache.Valid() && Matches(cache, m) && l < m.dims.nLayers
    requires |q0| == |k0| == |v| == |xs| && |cache.Contents()[l]| + |xs| <= cache.maxSeqLen
    requires forall t :: 0 <= t < |xs| ==> m.qkv(l, m.attnNorm(l, xs[t])) == Some(Qkv(q0[t], k0[t], v[t]))
    modifies cache
    ensures cache.Valid() && |q| == |k| == |ps| == |xs|
    ensures ProjectAll(m, l, start, xs) == Some(ps)
    ensures forall t :: 0 <= t < |ps| ==> q[t] == ps[t].q && |q[t]| == m.dims.nEmbd
    ensures cache.Contents() == old(cache.Contents())[l := old(cache.Contents())[l] + StoreAll(m, ps)]
  {
    hide Rows, StoreAll, ProjectAll;
    q, k, ps := [], [], [];
    ghost var before := cache.Contents();
    EmptyProjection(m, l, start, xs);
    assert before[l] + [] == before[l];
    var t := 0;
    while t < |q0|
      invariant 0 <= t <= |xs| && |q| == |k| == |ps| == t
      invariant forall i :: 0 <= i < t ==> q[i] == ps[i].q && |q[i]| == m.dims.nEmbd
      invariant ProjectAll(m, l, start, xs[..t]) == Some(ps) && |StoreAll(m, ps)| == t
      invariant cache.Valid() && cache.Contents() == before[l := before[l] + StoreAll(m, ps)]
    {
      var qT, kT := RotateAndAppend(m, l, cache, q0[t], k0[t], v[t], start + t);
      ghost var p := Qkv(qT, kT, v[t]);
      ProjectAllStep(m, l, start, xs, t, ps, p);
      assert before[l] + StoreAll(m, ps) + [Store(m, p.k, p.v)] == before[l] + StoreAll(m, ps + [p]);
      q, k, ps := q + [qT], k + [kT], ps + [p];
      t := t + 1;
    }
    assert xs[..t] == xs;
  }

  /** Norm and project every token of the chunk. */
  method ProjectChunk<F(!new)>(m: Model<F>, l: nat, ws: PrefillWorkspace<F>, ghost start: nat) returns (ok: bool)
    requires ws.Prepared(|ws.hidden|)
    modifies ws
    ensures ws.hidden == old(ws.hidden) && ws.Prepared(|ws.hidden|)
    ensures ok ==> forall t :: 0 <= t < |ws.hidden| ==>
              m.qkv(l, m.attnNorm(l, ws.hidden[t])) == Some(Qkv(ws.q[t], ws.k[t], ws.v[t]))
    ensures !ok ==> ProjectAll(m, l, start, ws.hidden).None?
  {
    hide ProjectAll;
    ws.xNorm := NormRows(m.attnNorm, l, ws.hidden, ws.xNorm);
    var q, k, v;
    ok, q, k, v := QkvBatched(m, l, ws.xNorm);
    if !ok {
      ghost var t :| 0 <= t < |ws.hidden| && m.qkv(l, ws.xNorm[t]).None?;
      ProjectAllFails(m, l, start, ws.hidden, t);
      return;
    }
    ws.q, ws.k, ws.v := q, k, v;
  }

  /** First half of a prefill layer: norm and project the chunk, rotate, and append every token. */
  method PrefillProject<F(!new)>(m: Model<F>, l: nat, cache: KVCache<F>, ws: PrefillWorkspace<F>, start: nat)
      returns (ok: bool, ghost ps: seq<Qkv<F>>)
    requires WellFormed(m) && cache.Valid() && Matches(cache, m) && l < m.dims.nLayers
    requires ws.Prepared(|ws.hidden|) && |cache.Contents()[l]| + |ws.hidden| <= cache.maxSeqLen
    modifies cache, ws
    ensures cache.Valid() && (!ok ==> cache.layers == old(cache.layers))
    ensures ws.hidden == old(ws.hidden) && ws.Prepared(|ws.hidden|)
    ensures ok <==> ProjectAll(m, l, start, ws.hidden).Some?
    ensures ok ==> ProjectAll(m, l, start, ws.hidden) == Some(ps) && |ps| == |ws.hidden|
    ensures ok ==> forall t :: 0 <= t < |ps| ==> ws.q[t] == ps[t].q && |ws.q[t]| == m.dims.nEmbd
    ensures ok ==> cache.Contents() == old(cache.Contents())[l := old(cache.Contents())[l] + StoreAll(m, ps)]
  {
    hide Rows, StoreAll, ProjectAll;
    ps := [];
    ok := ProjectChunk(m, l, ws, start);
    if ok {
      var q, k;
      q, k, ps := AppendChunk(m, l, cache, ws.q, ws.k, ws.v, start, ws.hidden);
      ws.q, ws.k := q, k;
    }
  }

  lemma EmptyProjection<F>(m: Model<F>, l: nat, pos: nat, xs: seq<seq<F>>)
    ensures ProjectAll(m, l, pos, xs[..0]) == Some([]) && StoreAll(m, []) == []
  {
  }

  /** Element-wise combination of two chunks, row by row. */
  method ZipRows<F(!new)>(f: (F, F) -> F, x: seq<seq<F>>, y: seq<seq<F>>) returns (r: seq<seq<F>>)
    requires |x| == |y|
    ensures |r| == |x| && forall t :: 0 <= t < |x| ==> r[t] == ZipWith(f, x[t], y[t])
  {
    r := x;
    var t := 0;
    while t < |x|
      invariant 0 <= t <= |x| == |r|
      invariant forall i :: 0 <= i < t ==> r[i] == ZipWith(f, x[i], y[i])
      invariant forall i :: t <= i < |x| ==> r[i] == x[i]
    {
      var row := ZipInto(f, r[t], y[t]);
      r := r[t := row];
      t := t + 1;
    }
  }

  /** What attention hands to the output projection for token `t`, given its window. */
  function AttnInput<F>(m: Model<F>, l: nat, q: seq<F>, ks: seq<seq<F>>, vs: seq<seq<F>>, past: nat): seq<F>
    requires past <= |ks| == |vs|
  {
    SubNormed(m, l, Attend(m, q, ks[..past], vs[..past]))
  }

  /** Attention of every token over its own window of the buffers, and the sub-norm. */
  method AttendChunk<F(!new)>(m: Model<F>, l: nat, ws: PrefillWorkspace<F>, base: nat)
    requires WellFormed(m) && ws.Prepared(|ws.hidden|)
    requires forall t :: 0 <= t < |ws.q| ==> |ws.q[t]| == m.dims.nEmbd
    requires |ws.scratchK| == |ws.scratchV| == (base + |ws.hidden|) * m.dims.kvDim
    modifies ws`attnOut, ws`xNorm
    ensures ws.Prepared(|ws.hidden|)
    ensures var rows := base + |ws.hidden|;
            var ks, vs := Windows(ws.scratchK, m.dims.kvDim, rows), Windows(ws.scratchV, m.dims.kvDim, rows);
            forall t :: 0 <= t < |ws.hidden| ==>
              (if m.variant.BitNetSubNorm? then ws.xNorm else ws.attnOut)[t] == AttnInput(m, l, ws.q[t], ks, vs, base + t + 1)
  {
    hide Attend, Windows;
    ghost var rows := base + |ws.hidden|;
    ghost var ks, vs := Windows(ws.scratchK, m.dims.kvDim, rows), Windows(ws.scratchV, m.dims.kvDim, rows);
    var t := 0;
    while t < |ws.hidden|
      invariant 0 <= t <= |ws.hidden| && ws.Prepared(|ws.hidden|)
      invariant forall i :: 0 <= i < t ==>
                  (if m.variant.BitNetSubNorm? then ws.xNorm else ws.attnOut)[i] == AttnInput(m, l, ws.q[i], ks, vs, base + i + 1)
    {
      var out := ScaledDotProductAttention(m, ws.q[t], ws.scratchK, ws.scratchV, base + |ws.hidden|, base + t + 1);
      ws.attnOut := ws.attnOut[t := out];
      if m.variant.BitNetSubNorm? {
        ws.xNorm := ws.xNorm[t := m.attnSubNorm(l, ws.attnOut[t])];
      }
      t := t + 1;
    }
  }

  /** Attention half of a prefill layer: every token's residual stream after attention. */
  method PrefillAttend<F(!new)>(m: Model<F>, l: nat, ws: PrefillWorkspace<F>, base: nat) returns (ok: bool)
    requires WellFormed(m) && ws.Prepared(|ws.hidden|)
    requires forall t :: 0 <= t < |ws.q| ==> |ws.q[t]| == m.dims.nEmbd
    requires |ws.scratchK| == |ws.scratchV| == (base + |ws.hidden|) * m.dims.kvDim
    modifies ws
    ensures ws.Prepared(|old(ws.hidden)|)
    ensures var xs, q := old(ws.hidden), old(ws.q); var rows := base + |xs|;
            var ks, vs := Windows(old(ws.scratchK), m.dims.kvDim, rows), Windows(old(ws.scratchV), m.dims.kvDim, rows);
            && (ok ==> forall t :: 0 <= t < |xs| ==>
                  AttnHalf(m, l, xs[t], q[t], ks[..base + t + 1], vs[..base + t + 1]) == Some(ws.hidden[t]))
            && (!ok ==> exists t :: (0 <= t < |xs| && AttnHalf(m, l, xs[t], q[t], ks[..base + t + 1], vs[..base + t + 1]).None?))
  {
    hide Attend, Windows, ZipWith, SubNormed;
    ghost var xs, q0 := ws.hidden, ws.q;
    ghost var rows := base + |xs|;
    ghost var ks, vs := Windows(ws.scratchK, m.dims.kvDim, rows), Windows(ws.scratchV, m.dims.kvDim, rows);
    AttendChunk(m, l, ws, base);
    var input := if m.variant.BitNetSubNorm? then ws.xNorm else ws.attnOut;
    assert forall t :: 0 <= t < |xs| ==> input[t] == AttnInput(m, l, q0[t], ks, vs, base + t + 1);
    var q;
    ok, q := LinearBatched(m.attnOutput, l, input, ws.q);
    if !ok {
      ghost var t :| 0 <= t < |xs| && m.attnOutput(l, input[t]).None?;
      assert AttnHalf(m, l, xs[t], q0[t], ks[..base + t + 1], vs[..base + t + 1]).None?;
      return;
    }
    ws.q := q;
    ws.hidden := ZipRows(m.add, ws.hidden, ws.q);
  }

  /** Norm every row and run the gate and up projections. */
  method GateUpChunk<F(!new)>(m: Model<F>, l: nat, ws: PrefillWorkspace<F>) returns (ok: bool)
    requires ws.Prepared(|ws.hidden|)
    modifies ws`xNorm, ws`gate, ws`up
    ensures ws.Prepared(|ws.hidden|)
    ensures ok ==> forall t :: 0 <= t < |ws.hidden| ==>
              && m.ffnGate(l, m.ffnNorm(l, ws.hidden[t])) == Some(ws.gate[t])
              && m.ffnUp(l, m.ffnNorm(l, ws.hidden[t])) == Some(ws.up[t])
    ensures !ok ==> exists t :: 0 <= t < |ws.hidden| && FfnHalf(m, l, ws.hidden[t]).None?
  {
    ws.xNorm := NormRows(m.ffnNorm, l, ws.hidden, ws.xNorm);
    var gate, up;
    ok, gate := LinearBatched(m.ffnGate, l, ws.xNorm, ws.gate);
    if !ok {
      ghost var t :| 0 <= t < |ws.hidden| && m.ffnGate(l, ws.xNorm[t]).None?;
      assert FfnHalf(m, l, ws.hidden[t]).None?;
      return;
    }
    ws.gate := gate;
    ok, up := LinearBatched(m.ffnUp, l, ws.xNorm, ws.up);
    if !ok {
      ghost var t :| 0 <= t < |ws.hidden| && m.ffnUp(l, ws.xNorm[t]).None?;
      assert FfnHalf(m, l, ws.hidden[t]).None?;
      return;
    }
    ws.up := up;
  }

  /** Fuse, project down, add the residual, and check that every row is finite. */
  method DownChunk<F(!new)>(m: Model<F>, l: nat, ws: PrefillWorkspace<F>) returns (ok: bool)
    requires ws.Prepared(|ws.hidden|)
    requires forall t :: 0 <= t < |ws.hidden| ==>
               && m.ffnGate(l, m.ffnNorm(l, ws.hidden[t])) == Some(ws.gate[t])
               && m.ffnUp(l, m.ffnNorm(l, ws.hidden[t])) == Some(ws.up[t])
    modifies ws`hidden, ws`gate, ws`fused, ws`q
    ensures ws.Prepared(|old(ws.hidden)|)
    ensures ok ==> forall t :: 0 <= t < |ws.hidden| ==> FfnHalf(m, l, old(ws.hidden)[t]) == Some(ws.hidden[t])
    ensures !ok ==> exists t :: 0 <= t < |old(ws.hidden)| && FfnHalf(m, l, old(ws.hidden)[t]).None?
  {
    hide ZipWith;
    ghost var mid := ws.hidden;
    FuseChunk(m, l, ws);
    var downInput := if m.variant.BitNetSubNorm? then ws.gate else ws.fused;
    var down;
    ok, down := LinearBatched(m.ffnDown, l, downInput, ws.q);
    if !ok {
      ghost var t :| 0 <= t < |mid| && m.ffnDown(l, downInput[t]).None?;
      assert FfnHalf(m, l, mid[t]).None?;
      return;
    }
    ws.q := down;
    ws.hidden := ZipRows(m.add, ws.hidden, ws.q);
    ok := AllFinite(m, ws.hidden);
    if !ok {
      ghost var t :| 0 <= t < |mid| && !m.finite(ws.hidden[t]);
      assert FfnHalf(m, l, mid[t]).None?;
    }
  }

  /** Feed-forward half of a prefill layer, with its residual and finiteness check. */
  method PrefillFfn<F(!new)>(m: Model<F>, l: nat, ws: PrefillWorkspace<F>) returns (ok: bool)
    requires ws.Prepared(|ws.hidden|)
    modifies ws
    ensures ws.Prepared(|old(ws.hidden)|)
    ensures ok ==> forall t :: 0 <= t < |ws.hidden| ==> FfnHalf(m, l, old(ws.hidden)[t]) == Some(ws.hidden[t])
    ensures !ok ==> exists t :: 0 <= t < |old(ws.hidden)| && FfnHalf(m, l, old(ws.hidden)[t]).None?
  {
    hide FfnHalf;
    ok := GateUpChunk(m, l, ws);
    if ok {
      ok := DownChunk(m, l, ws);
    }
  }

  /** Activate and fuse every row; the BitNet sub-norm lands back in the gate buffer. */
  method FuseChunk<F(!new)>(m: Model<F>, l: nat, ws: PrefillWorkspace<F>)
    requires ws.Prepared(|ws.hidden|)
    modifies ws`gate, ws`fused
    ensures ws.Prepared(|ws.hidden|)
    ensures forall t :: 0 <= t < |ws.hidden| ==>
              (if m.variant.BitNetSubNorm? then ws.gate else ws.fused)[t]
              == FfnInput(m, l, Fused(m, old(ws.gate)[t], ws.up[t]))
  {
    hide ZipWith;
    ghost var gate0 := ws.gate;
    var t := 0;
    while t < |ws.hidden|
      invariant 0 <= t <= |ws.hidden| && ws.Prepared(|ws.hidden|)
      invariant forall i :: t <= i < |ws.hidden| ==> ws.gate[i] == gate0[i]
      invariant forall i :: 0 <= i < t ==>
                  (if m.variant.BitNetSubNorm? then ws.gate else ws.fused)[i] == FfnInput(m, l, Fused(m, gate0[i], ws.up[i]))
    {
      ws.gate := ws.gate[t := m.activate(ws.gate[t])];
      var row := ZipInto(m.mul, ws.gate[t], ws.up[t]);
      ws.fused := ws.fused[t := row];
      if m.variant.BitNetSubNorm? {
        ws.gate := ws.gate[t := m.ffnSubNorm(l, ws.fused[t])];
      }
      t := t + 1;
    }
  }

  method AllFinite<F>(m: Model<F>, rows: seq<seq<F>>) returns (ok: bool)
    ensures ok <==> forall t :: 0 <= t < |rows| ==> m.finite(rows[t])
  {
    var t := 0;
    while t < |rows|
      invariant 0 <= t <= |rows|
      invariant forall i :: 0 <= i < t ==> m.finite(rows[i])
    {
      if !m.finite(rows[t]) { return false; }
      t := t + 1;
    }
    ok := true;
  }

  /** Attention and feed-forward of a projected chunk: `FinishAll` on the buffers just read. */
  method PrefillFinish<F(!new)>(m: Model<F>, l: nat, ws: PrefillWorkspace<F>, base: nat,
                                ghost ps: seq<Qkv<F>>, ghost ks: seq<seq<F>>, ghost vs: seq<seq<F>>)
      returns (ok: bool)
    requires WellFormed(m) && ws.Prepared(|ws.hidden|) && |ps| == |ws.hidden|
    requires forall t :: 0 <= t < |ps| ==> ws.q[t] == ps[t].q && |ws.q[t]| == m.dims.nEmbd
    requires |ks| == |vs| == base + |ws.hidden|
    requires |ws.scratchK| == |ws.scratchV| == (base + |ws.hidden|) * m.dims.kvDim
    requires Windows(ws.scratchK, m.dims.kvDim, base + |ws.hidden|) == ks
    requires Windows(ws.scratchV, m.dims.kvDim, base + |ws.hidden|) == vs
    modifies ws
    ensures var ys := FinishAll(m, l, base, old(ws.hidden), ps, ks, vs);
            && (ok <==> ys.Some?)
            && (ok ==> ws.hidden == ys.value && ws.Prepared(|ws.hidden|))
  {
    hide AttnHalf, FfnHalf, FinishAll, Windows;
    ghost var xs := ws.hidden;
    ok := PrefillAttend(m, l, ws, base);
    if !ok {
      ghost var t :| 0 <= t < |xs| && AttnHalf(m, l, xs[t], ps[t].q, ks[..base + t + 1], vs[..base + t + 1]).None?;
      FinishAllFails(m, l, base, xs, ps, ks, vs, t);
      return;
    }
    ghost var mid := ws.hidden;
    assert forall t :: 0 <= t < |xs| ==> AttnHalf(m, l, xs[t], ps[t].q, ks[..base + t + 1], vs[..base + t + 1]) == Some(mid[t]);
    ok := PrefillFfn(m, l, ws);
    if !ok {
      ghost var t :| 0 <= t < |mid| && FfnHalf(m, l, mid[t]).None?;
      FinishAllFails(m, l, base, xs, ps, ks, vs, t);
      return;
    }
    FinishAllSucceeds(m, l, base, xs, ps, ks, vs, ws.hidden);
  }


  /** One layer of the prefill: `BatchLayer` on that layer's store. */
  method PrefillLayer<F(!new)>(m: Model<F>, l: nat, cache: KVCache<F>, ws: PrefillWorkspace<F>, start: nat, prefix: nat)
      returns (ok: bool)
    requires WellFormed(m) && cache.Valid() && Matches(cache, m) && l < m.dims.nLayers
    requires ws.Prepared(|ws.hidden|) && |cache.Contents()[l]| == prefix && prefix + |ws.hidden| <= cache.maxSeqLen
    modifies cache, ws
    ensures cache.Valid() && Extends(old(cache.Contents()), cache.Contents())
    ensures var row := BatchLayer(m, cache.maxSeqLen, l, start, old(ws.hidden), old(cache.Contents())[l]);
            && (ok <==> row.Some?)
            && (ok ==> ws.hidden == row.value.0 && ws.Prepared(|ws.hidden|))
            && (ok ==> cache.Contents() == old(cache.Contents())[l := row.value.1])
  {
    hide Rows, AttnHalf, FfnHalf, FinishAll, ProjectAll, StoreAll, Keys, Values;
    ghost var xs := ws.hidden;
    ghost var s := cache.Contents()[l];
    ghost var ps: seq<Qkv<F>>;
    ok, ps := PrefillProject(m, l, cache, ws, start);
    if !ok { return; }
    ghost var full := cache.Contents()[l];
    assert |full| == prefix + |xs|;
    var read := cache.ReadInto(l);
    ws.scratchK, ws.scratchV := read.value.0, read.value.1;
    ok := PrefillFinish(m, l, ws, prefix, ps, Keys(m.codec, full), Values(m.codec, full));
  }

  /** What the layers from `l` on still have to do to the chunk. */
  ghost function LayersRest<F>(m: Model<F>, cap: nat, l: nat, pos: nat, xs: seq<seq<F>>, now: Cache<F>): Option<(seq<seq<F>>, Cache<F>)>
    requires l <= |now|
  {
    match Layers(m, cap, l, pos, xs, now[l..])
    case None => None
    case Some((ys, rest)) => Some((ys, now[..l] + rest))
  }

  lemma LayersAdvance<F>(m: Model<F>, cap: nat, l: nat, pos: nat, xs: seq<seq<F>>, now: Cache<F>)
    requires l < |now|
    ensures LayersRest(m, cap, l, pos, xs, now) ==
            match BatchLayer(m, cap, l, pos, xs, now[l])
            case None => None
            case Some((ys, s)) => LayersRest(m, cap, l + 1, pos, ys, now[l := s])
  {
    hide BatchLayer;
    assert now[l..][0] == now[l] && now[l..][1..] == now[l + 1..];
    var row := BatchLayer(m, cap, l, pos, xs, now[l]);
    if row.Some? {
      var next := now[l := row.value.1];
      assert next[l + 1..] == now[l + 1..];
      var rest := Layers(m, cap, l + 1, pos, row.value.0, now[l + 1..]);
      if rest.Some? {
        assert now[..l] + ([row.value.1] + rest.value.1) == next[..l + 1] + rest.value.1;
      }
    }
  }

  /** The layer loop of a chunk. */
  method PrefillLayers<F(!new)>(m: Model<F>, cache: KVCache<F>, ws: PrefillWorkspace<F>, start: nat, prefix: nat) returns (ok: bool)
    requires WellFormed(m) && cache.Valid() && Matches(cache, m)
    requires ws.Prepared(|ws.hidden|) && Synced(cache.Contents(), prefix) && prefix + |ws.hidden| <= cache.maxSeqLen
    modifies cache, ws
    ensures cache.Valid() && Extends(old(cache.Contents()), cache.Contents())
    ensures var run := Layers(m, cache.maxSeqLen, 0, start, old(ws.hidden), old(cache.Contents()));
            && (ok <==> run.Some?)
            && (ok ==> ws.hidden == run.value.0 && |ws.hidden| == |old(ws.hidden)| && cache.Contents() == run.value.1)
  {
    hide BatchLayer, Rows;
    ghost var before := cache.Contents();
    ghost var xs := ws.hidden;
    ghost var cap := cache.maxSeqLen;
    assert before[0..] == before && before[..0] == [];
    var l := 0;
    while l < m.dims.nLayers
      invariant 0 <= l <= m.dims.nLayers
      invariant ws.Prepared(|xs|)
      invariant cache.Valid() && Extends(before, cache.Contents())
      invariant forall i :: l <= i < m.dims.nLayers ==> |cache.Contents()[i]| == prefix
      invariant LayersRest(m, cap, l, start, ws.hidden, cache.Contents()) == LayersRest(m, cap, 0, start, xs, before)
    {
      LayersAdvance(m, cap, l, start, ws.hidden, cache.Contents());
      ok := PrefillLayer(m, l, cache, ws, start, prefix);
      if !ok { return; }
      l := l + 1;
    }
    assert cache.Contents()[l..] == [] && cache.Contents()[..l] + [] == cache.Contents();
    ok := true;
  }

  const U32_MAX: nat := 0xFFFF_FFFF

  /** Gather the embedding of every token. */
  method EmbedChunk<F(!new)>(m: Model<F>, tokens: seq<nat>) returns (rows: Option<seq<seq<F>>>)
    ensures rows == EmbedAll(m, tokens)
  {
    var i := 0;
    while i < |tokens|
      invariant 0 <= i <= |tokens|
      invariant forall j :: 0 <= j < i ==> tokens[j] < m.dims.vocabSize
    {
      if tokens[i] >= m.dims.vocabSize {
        EmbedAllFails(m, tokens, i);
        return None;
      }
      i := i + 1;
    }
    var xs: seq<seq<F>> := [];
    i := 0;
    while i < |tokens|
      invariant 0 <= i <= |tokens|
      invariant EmbedAll(m, tokens[..i]) == Some(xs)
    {
      var x := m.embed(tokens[i]);
      assert tokens[..i + 1][..i] == tokens[..i];
      if x.None? {
        EmbedAllFails(m, tokens, i);
        return None;
      }
      xs := xs + [x.value];
      i := i + 1;
    }
    assert tokens[..i] == tokens;
    rows := Some(xs);
  }

  lemma {:induction false} EmbedAllFails<F>(m: Model<F>, tokens: seq<nat>, i: nat)
    requires i < |tokens| && (tokens[i] >= m.dims.vocabSize || m.embed(tokens[i]).None?)
    ensures EmbedAll(m, tokens).None?
  {
    if i < |tokens| - 1 {
      EmbedAllFails(m, tokens[..|tokens| - 1], i);
    }
  }

  /** The prefill of a chunk whose inputs have been checked. */
  method PrefillChecked<F(!new)>(m: Model<F>, cache: KVCache<F>, ws: PrefillWorkspace<F>, tokens: seq<nat>, start: nat)
      returns (output: Option<seq<F>>)
    requires WellFormed(m) && cache.Valid() && Matches(cache, m)
    requires Synced(cache.Contents(), start) && tokens != [] && start + |tokens| <= cache.maxSeqLen
    modifies cache, ws
    ensures cache.Valid()
    ensures var run := Prefill(m, cache.maxSeqLen, old(cache.Contents()), tokens, start);
            && (output.Some? <==> run.Some?)
            && (output.Some? ==> output.value == run.value.0 && cache.Contents() == run.value.1)
    ensures output.None? ==> cache.Contents() == old(cache.Contents())
  {
    hide Layers, Rows, EmbedAll;
    ghost var before := cache.Contents();
    var rows := EmbedChunk(m, tokens);
    if rows.None? { return None; }
    ws.Prepare(|tokens|);
    ws.hidden := rows.value;
    var ok := PrefillLayers(m, cache, ws, start, start);
    if ok {
      var h := m.outputNorm(ws.hidden[|tokens| - 1]);
      if m.finite(h) { return Some(h); }
    }
    ghost var grown := cache.Contents();
    cache.Rollback(start);
    RollbackRestores(before, grown, cache.Contents(), start);
    output := None;
  }

  /**
    The layer-major prefill of a chunk. All inputs and the capacity are checked before
    anything is touched; it succeeds exactly when they are valid and `Prefill` does,
    with that result, and any failure leaves the cache as it was.
    */
  method PrefillWithCache<F(!new)>(m: Model<F>, cache: KVCache<F>, ws: PrefillWorkspace<F>, tokens: seq<nat>, start: nat)
      returns (output: Option<seq<F>>)
    requires WellFormed(m) && cache.Valid() && cache.codec == m.codec
    requires Synced(cache.Contents(), cache.Position())
    requires cache.maxSeqLen * cache.kvDim <= USIZE_MAX && cache.maxSeqLen <= USIZE_MAX
    modifies cache, ws
    ensures cache.Valid()
    ensures var run := Prefill(m, cache.maxSeqLen, old(cache.Contents()), tokens, start);
            && (output.Some? <==>
                  && tokens != [] && Matches(cache, m) && old(cache.Position()) == start
                  && start + |tokens| <= cache.maxSeqLen && start + |tokens| - 1 <= U32_MAX && run.Some?)
            && (output.Some? ==> output.value == run.value.0 && cache.Contents() == run.value.1)
    ensures output.None? ==> cache.Contents() == old(cache.Contents())
  {
    hide Prefill, Rows;
    if tokens == [] { return None; }
    MulMonotone(cache.Position(), cache.maxSeqLen, cache.kvDim);
    SyncedLengths(cache);
    var prefix := cache.ValidateAppend(m.dims.nLayers, m.dims.kvDim, |tokens|);
    if prefix.None? { return None; }
    if prefix.value != start { return None; }
    if |tokens| - 1 > U32_MAX || start + (|tokens| - 1) > U32_MAX { return None; }
    output := PrefillChecked(m, cache, ws, tokens, start);
  }

  /** The stores agree in length exactly when the flat layers do. */
  lemma SyncedLengths<F(!new)>(cache: KVCache<F>)
    requires cache.Valid() && Synced(cache.Contents(), cache.Position())
    ensures cache.InSync(cache.Position()) && cache.Position() <= cache.maxSeqLen
  {
    forall l | 0 <= l < |cache.layers| ensures |cache.layers[l].kScales| == cache.Position() {
      assert |cache.Contents()[l]| == cache.Position();
    }
  }
}
