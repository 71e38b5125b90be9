/**
  The forward pass in the formulas it is known by: grouped-query attention head by head,
  and every residual state as a solution of the layer equations. Nothing here stores,
  batches or computes an offset by division; the lemmas say that what the schedules
  compute is this.
  */
module Textbook {
  import opened Wrappers
  import opened Transformer
  import opened Schedules
  import opened KvCache

  // ---------------------------------------------------------------------------
  // Attention
  // ---------------------------------------------------------------------------

  /** A sum in order from the left. */
  function Fold<F>(f: (F, F) -> F, start: F, s: seq<F>): F {
    if s == [] then start else f(Fold(f, start, s[..|s| - 1]), s[|s| - 1])
  }

  /** The scaled inner product of a query and a key of one head. */
  function Score<F>(m: Model<F>, q: seq<F>, k: seq<F>): F
    requires |q| == |k|
  {
    m.mul(Fold(m.add, m.zero, seq(|q|, i requires 0 <= i < |q| => m.mul(q[i], k[i]))), m.attnScale)
  }

  predicate Wide<F>(rows: seq<seq<F>>, n: nat) {
    forall p :: 0 <= p < |rows| ==> |rows[p]| >= n
  }

  /** Columns `lo` to `hi` of every row. */
  function Columns<F>(rows: seq<seq<F>>, lo: nat, hi: nat): (r: seq<seq<F>>)
    requires lo <= hi && Wide(rows, hi)
    ensures |r| == |rows| && forall p :: 0 <= p < |rows| ==> r[p] == rows[p][lo..hi]
  {
    seq(|rows|, p requires 0 <= p < |rows| => rows[p][lo..hi])
  }

  /** Output `j` of one head: the softmax of its scores, weighting column `j` of its values. */
  function HeadAt<F>(m: Model<F>, q: seq<F>, ks: seq<seq<F>>, vs: seq<seq<F>>, j: nat): F
    requires (forall p :: 0 <= p < |ks| ==> |ks[p]| == |q|) && Wide(vs, j + 1)
    requires |m.softmax(seq(|ks|, p requires 0 <= p < |ks| => Score(m, q, ks[p])))| == |vs|
  {
    var weights := m.softmax(seq(|ks|, p requires 0 <= p < |ks| => Score(m, q, ks[p])));
    Fold(m.add, m.zero, seq(|vs|, p requires 0 <= p < |vs| => m.mul(weights[p], vs[p][j])))
  }

  /** The `h`-th query head is in the `g`-th group. */
  predicate InGroup(d: Dims, h: nat, g: nat) {
    g * d.groupSize <= h < (g + 1) * d.groupSize
  }

  lemma GroupIsQuotient(h: nat, g: nat, size: nat)
    requires size > 0 && g * size <= h < (g + 1) * size
    ensures h / size == g
  {
    assert (g + 1) * size == g * size + size;
    PositionAt(g, h - g * size, size);
  }

  lemma {:induction false} DotIsFold<F>(m: Model<F>, a: seq<F>, b: seq<F>, n: nat)
    requires n <= |a| == |b|
    ensures DotPrefix(m, a, b, n) == Fold(m.add, m.zero, seq(n, i requires 0 <= i < n => m.mul(a[i], b[i])))
  {
    if n > 0 {
      DotIsFold(m, a, b, n - 1);
      var products := seq(n, i requires 0 <= i < n => m.mul(a[i], b[i]));
      assert products[..n - 1] == seq(n - 1, i requires 0 <= i < n - 1 => m.mul(a[i], b[i]));
    }
  }

  lemma {:induction false} MixIsFold<F>(m: Model<F>, w: seq<F>, vs: seq<seq<F>>, at: nat, n: nat)
    requires n <= |vs| == |w| && Wide(vs, at + 1)
    ensures Mix(m, w, vs, at, n) == Fold(m.add, m.zero, seq(n, p requires 0 <= p < n => m.mul(w[p], vs[p][at])))
  {
    if n > 0 {
      MixIsFold(m, w, vs, at, n - 1);
      var weighted := seq(n, p requires 0 <= p < n => m.mul(w[p], vs[p][at]));
      assert weighted[..n - 1] == seq(n - 1, p requires 0 <= p < n - 1 => m.mul(w[p], vs[p][at]));
    }
  }

  /** Where the group's slice starts, and that output `j` of head `h` reads from there. */
  lemma OutputOfHead<F>(m: Model<F>, q: seq<F>, ks: seq<seq<F>>, vs: seq<seq<F>>, h: nat, g: nat, j: nat)
    requires m.dims.groupSize > 0 && h < m.dims.nHeads && j < m.dims.headDim && InGroup(m.dims, h, g)
    ensures h * m.dims.headDim + j < |Attend(m, q, ks, vs)|
    ensures KvOffset(m.dims, h) == g * m.dims.headDim
    ensures Attend(m, q, ks, vs)[h * m.dims.headDim + j]
         == Mix(m, m.softmax(Scores(m, q, ks, h)), vs, g * m.dims.headDim + j, |vs|)
  {
    hide Mix, Scores;
    var hd := m.dims.headDim;
    RowBound(h, m.dims.nHeads, hd);
    PositionAt(h, j, hd);
    GroupIsQuotient(h, g, m.dims.groupSize);
  }

  lemma ScoreOfSlices<F>(m: Model<F>, q: seq<F>, k: seq<F>, a: nat, b: nat, n: nat)
    requires a + n <= |q| && b + n <= |k|
    ensures m.mul(Dot(m, Span(q, a, n), Span(k, b, n)), m.attnScale) == Score(m, q[a..a + n], k[b..b + n])
  {
    DotIsFold(m, q[a..a + n], k[b..b + n], n);
  }

  lemma ScoresAreScaled<F>(m: Model<F>, q: seq<F>, ks: seq<seq<F>>, h: nat, a: nat, b: nat)
    requires m.dims.groupSize > 0 && a == h * m.dims.headDim && b == KvOffset(m.dims, h)
    requires a + m.dims.headDim <= |q| && Wide(ks, b + m.dims.headDim)
    ensures var qH, kH := q[a..a + m.dims.headDim], Columns(ks, b, b + m.dims.headDim);
      Scores(m, q, ks, h) == seq(|kH|, p requires 0 <= p < |kH| => Score(m, qH, kH[p]))
  {
    hide Score, Dot, KvOffset;
    var hd := m.dims.headDim;
    forall p | 0 <= p < |ks|
      ensures Scores(m, q, ks, h)[p] == Score(m, q[a..a + hd], ks[p][b..b + hd])
    {
      ScoreOfSlices(m, q, ks[p], a, b, hd);
    }
  }

  lemma MixedColumns<F>(m: Model<F>, w: seq<F>, vs: seq<seq<F>>, b: nat, n: nat, j: nat)
    requires |w| == |vs| && Wide(vs, b + n) && j < n
    ensures var vH := Columns(vs, b, b + n);
      Mix(m, w, vs, b + j, |vs|) == Fold(m.add, m.zero, seq(|vH|, p requires 0 <= p < |vH| => m.mul(w[p], vH[p][j])))
  {
    hide Fold, Mix;
    var vH := Columns(vs, b, b + n);
    MixIsFold(m, w, vs, b + j, |vs|);
    assert seq(|vs|, p requires 0 <= p < |vs| => m.mul(w[p], vs[p][b + j]))
        == seq(|vH|, p requires 0 <= p < |vH| => m.mul(w[p], vH[p][j]));
  }

  /** The slice of the query, and of the keys and values, that a head of a group reads. */
  predicate HasSlices<F>(m: Model<F>, q: seq<F>, ks: seq<seq<F>>, vs: seq<seq<F>>, a: nat, b: nat) {
    |ks| == |vs| && a + m.dims.headDim <= |q| && Wide(ks, b + m.dims.headDim) && Wide(vs, b + m.dims.headDim)
  }

  lemma OneHead<F>(m: Model<F>, q: seq<F>, ks: seq<seq<F>>, vs: seq<seq<F>>, h: nat, j: nat, a: nat, b: nat)
    requires m.dims.groupSize > 0 && j < m.dims.headDim && a == h * m.dims.headDim && b == KvOffset(m.dims, h)
    requires HasSlices(m, q, ks, vs, a, b)
    requires forall s: seq<F> {:trigger m.softmax(s)} :: |s| == |ks| ==> |m.softmax(s)| == |s|
    ensures var hi := b + m.dims.headDim;
      Mix(m, m.softmax(Scores(m, q, ks, h)), vs, b + j, |vs|)
      == HeadAt(m, q[a..a + m.dims.headDim], Columns(ks, b, hi), Columns(vs, b, hi), j)
  {
    hide Score, Scores, Fold, Mix, KvOffset;
    ScoresAreScaled(m, q, ks, h, a, b);
    MixedColumns(m, m.softmax(Scores(m, q, ks, h)), vs, b, m.dims.headDim, j);
  }

  /**
    Attention is its heads: output `j` of query head `h` is that head's own slice of the
    query, from `a` on, attending to the slice of the keys and values its group shares, from
    `b` on, and nothing else.
    */
  lemma AttendIsByHeads<F>(m: Model<F>, q: seq<F>, ks: seq<seq<F>>, vs: seq<seq<F>>, h: nat, g: nat, j: nat, a: nat, b: nat)
    requires m.dims.groupSize > 0 && h < m.dims.nHeads && j < m.dims.headDim && InGroup(m.dims, h, g)
    requires a == h * m.dims.headDim && b == g * m.dims.headDim && HasSlices(m, q, ks, vs, a, b)
    requires forall s: seq<F> {:trigger m.softmax(s)} :: |s| == |ks| ==> |m.softmax(s)| == |s|
    ensures a + j < |Attend(m, q, ks, vs)|
    ensures var hd := m.dims.headDim;
      Attend(m, q, ks, vs)[a + j] == HeadAt(m, q[a..a + hd], Columns(ks, b, b + hd), Columns(vs, b, b + hd), j)
  {
    hide Score, Scores, Fold, Mix, Attend, KvOffset, HeadAt;
    OutputOfHead(m, q, ks, vs, h, g, j);
    OneHead(m, q, ks, vs, h, j, a, b);
  }

  lemma ScoresAreLocal<F>(m: Model<F>, q: seq<F>, ks: seq<seq<F>>, ks': seq<seq<F>>, h: nat, b: nat)
    requires m.dims.groupSize > 0 && b == KvOffset(m.dims, h) && |ks| == |ks'|
    requires Wide(ks, b + m.dims.headDim) && Wide(ks', b + m.dims.headDim)
    requires Columns(ks, b, b + m.dims.headDim) == Columns(ks', b, b + m.dims.headDim)
    ensures Scores(m, q, ks, h) == Scores(m, q, ks', h)
  {
    hide Dot, KvOffset;
    forall p | 0 <= p < |ks| ensures Scores(m, q, ks, h)[p] == Scores(m, q, ks', h)[p] {
      assert Columns(ks, b, b + m.dims.headDim)[p] == Columns(ks', b, b + m.dims.headDim)[p];
      assert Span(ks[p], b, m.dims.headDim) == Span(ks'[p], b, m.dims.headDim);
    }
  }

  /** So keys and values that agree on the columns of a group give its heads the same outputs. */
  lemma HeadsAreLocal<F>(m: Model<F>, q: seq<F>, ks: seq<seq<F>>, vs: seq<seq<F>>, ks': seq<seq<F>>, vs': seq<seq<F>>,
                         h: nat, g: nat, j: nat)
    requires m.dims.groupSize > 0 && h < m.dims.nHeads && j < m.dims.headDim && InGroup(m.dims, h, g)
    requires |ks| == |ks'| && |vs| == |vs'|
    requires var lo, hi := g * m.dims.headDim, g * m.dims.headDim + m.dims.headDim;
      && Wide(ks, hi) && Wide(ks', hi) && Wide(vs, hi) && Wide(vs', hi)
      && Columns(ks, lo, hi) == Columns(ks', lo, hi) && Columns(vs, lo, hi) == Columns(vs', lo, hi)
    ensures var at := h * m.dims.headDim + j;
      at < |Attend(m, q, ks, vs)| == |Attend(m, q, ks', vs')| && Attend(m, q, ks, vs)[at] == Attend(m, q, ks', vs')[at]
  {
    hide Scores, Mix, Attend, KvOffset, Wide, Columns;
    OutputOfHead(m, q, ks, vs, h, g, j);
    OutputOfHead(m, q, ks', vs', h, g, j);
    ScoresAreLocal(m, q, ks, ks', h, g * m.dims.headDim);
    MixIsLocal(m, m.softmax(Scores(m, q, ks, h)), vs, vs', g * m.dims.headDim, m.dims.headDim, j, |vs|);
  }

  lemma {:induction false} MixIsLocal<F>(m: Model<F>, w: seq<F>, vs: seq<seq<F>>, vs': seq<seq<F>>, lo: nat, n: nat, j: nat, rows: nat)
    requires rows <= |vs| == |vs'| && j < n && Wide(vs, lo + n) && Wide(vs', lo + n)
    requires Columns(vs, lo, lo + n) == Columns(vs', lo, lo + n)
    ensures Mix(m, w, vs, lo + j, rows) == Mix(m, w, vs', lo + j, rows)
  {
    hide Columns;
    if rows > 0 {
      MixIsLocal(m, w, vs, vs', lo, n, j, rows - 1);
      SameElement(vs, vs', lo, n, j, rows - 1);
    }
  }

  lemma SameElement<F>(vs: seq<seq<F>>, vs': seq<seq<F>>, lo: nat, n: nat, j: nat, row: nat)
    requires row < |vs| == |vs'| && j < n && Wide(vs, lo + n) && Wide(vs', lo + n)
    requires Columns(vs, lo, lo + n) == Columns(vs', lo, lo + n)
    ensures lo + j < |vs[row]| && lo + j < |vs'[row]| && vs[row][lo + j] == vs'[row][lo + j]
  {
    assert Columns(vs, lo, lo + n)[row][j] == vs[row][lo + j];
    assert Columns(vs', lo, lo + n)[row][j] == vs'[row][lo + j];
  }

  // ---------------------------------------------------------------------------
  // One layer of one token
  // ---------------------------------------------------------------------------

  /** `z` is `x` with `y` added element by element, as far as `y` goes. */
  ghost predicate IsSum<F>(m: Model<F>, x: seq<F>, y: seq<F>, z: seq<F>) {
    |z| == |x| && forall i :: 0 <= i < |x| ==> z[i] == if i < |y| then m.add(x[i], y[i]) else x[i]
  }

  /** `z` is the gate, activated, times `up`. */
  ghost predicate IsGated<F>(m: Model<F>, gate: seq<F>, up: seq<F>, z: seq<F>) {
    var g := m.activate(gate);
    |z| == |g| && forall i :: 0 <= i < |g| ==> z[i] == if i < |up| then m.mul(g[i], up[i]) else g[i]
  }

  /** `x` is what the cache gives back for a vector of which it keeps `row`. */
  ghost predicate IsReadBack<F>(m: Model<F>, row: Row<F>, x: seq<F>) {
    |x| == |row.codes| && forall i :: 0 <= i < |x| ==> x[i] == m.codec.dequantise(row.codes[i], row.scale)
  }

  /** What one layer computes on the way to its output. */
  datatype Trace<F> = Trace(projected: seq<Qkv<F>>, keys: seq<seq<F>>, values: seq<seq<F>>, o: seq<F>, mid: seq<F>,
                            gate: seq<F>, up: seq<F>, fused: seq<F>, down: seq<F>)

  /** `o` is the output projection of the attended values, normed before it in a BitNet layer. */
  ghost predicate IsAttended<F>(m: Model<F>, l: nat, attended: seq<F>, o: seq<F>) {
    m.attnOutput(l, if m.variant.BitNetSubNorm? then m.attnSubNorm(l, attended) else attended) == Some(o)
  }

  /** Row `p` of the layer's store: the key rotated to position `p` and the value as it is, both quantised. */
  ghost predicate IsStored<F>(m: Model<F>, p: nat, projected: Qkv<F>, row: KV<F>) {
    row.k == m.codec.quantise(m.ropeK(projected.k, p)) && row.v == m.codec.quantise(projected.v)
  }

  /** The projections of the tokens' normed states, and what the cache gives back of the keys and values. */
  ghost predicate IsProjected<F>(m: Model<F>, l: nat, xs: seq<seq<F>>, t: Trace<F>) {
    && |t.projected| == |t.keys| == |t.values| == |xs|
    && (forall p: nat :: p < |xs| ==> m.qkv(l, m.attnNorm(l, xs[p])) == Some(t.projected[p]))
    && (forall p: nat :: p < |xs| ==> IsReadBack(m, m.codec.quantise(m.ropeK(t.projected[p].k, p)), t.keys[p]))
    && (forall p: nat :: p < |xs| ==> IsReadBack(m, m.codec.quantise(t.projected[p].v), t.values[p]))
  }

  /** From a state and its query to the next state: attend, project, add; norm, gate, project, add. */
  ghost predicate IsFinished<F>(m: Model<F>, l: nat, x: seq<F>, q: seq<F>, y: seq<F>, t: Trace<F>) {
    && IsAttended(m, l, Attend(m, q, t.keys, t.values), t.o)
    && IsSum(m, x, t.o, t.mid)
    && m.ffnGate(l, m.ffnNorm(l, t.mid)) == Some(t.gate) && m.ffnUp(l, m.ffnNorm(l, t.mid)) == Some(t.up)
    && IsGated(m, t.gate, t.up, t.fused)
    && m.ffnDown(l, if m.variant.BitNetSubNorm? then m.ffnSubNorm(l, t.fused) else t.fused) == Some(t.down)
    && IsSum(m, t.mid, t.down, y)
    && m.finite(y)
  }

  /**
    The layer equations: `y` is the residual state after layer `l` of the last of the tokens
    whose states before it are `xs`.
    */
  ghost predicate Solves<F>(m: Model<F>, l: nat, xs: seq<seq<F>>, y: seq<F>, t: Trace<F>)
    requires xs != []
  {
    var last := |xs| - 1;
    IsProjected(m, l, xs, t) && IsFinished(m, l, xs[last], m.ropeQ(t.projected[last].q, last), y, t)
  }

  ghost predicate LayerEquations<F(!new)>(m: Model<F>, l: nat, xs: seq<seq<F>>, y: seq<F>)
    requires xs != []
  {
    exists t: Trace<F> :: Solves(m, l, xs, y, t)
  }

  lemma SumIsZip<F>(m: Model<F>, x: seq<F>, y: seq<F>, z: seq<F>)
    ensures IsSum(m, x, y, z) <==> z == ZipWith(m.add, x, y)
  {
  }

  lemma GatedIsFused<F>(m: Model<F>, gate: seq<F>, up: seq<F>, z: seq<F>)
    ensures IsGated(m, gate, up, z) <==> z == Fused(m, gate, up)
  {
  }

  lemma ReadBackIsReadRow<F>(m: Model<F>, row: Row<F>, x: seq<F>)
    ensures IsReadBack(m, row, x) <==> x == ReadRow(m.codec, row)
  {
  }

  lemma FinishedIsFinish<F>(m: Model<F>, l: nat, x: seq<F>, q: seq<F>, y: seq<F>, t: Trace<F>)
    requires IsFinished(m, l, x, q, y, t)
    ensures Finish(m, l, x, q, t.keys, t.values) == Some(y)
  {
    hide IsSum, IsGated, ZipWith, Fused, Attend;
    SumIsZip(m, x, t.o, t.mid);
    GatedIsFused(m, t.gate, t.up, t.fused);
    SumIsZip(m, t.mid, t.down, y);
  }

  /** The trace of a layer that finishes. */
  lemma FinishIsFinished<F>(m: Model<F>, l: nat, x: seq<F>, q: seq<F>, y: seq<F>, projected: seq<Qkv<F>>,
                            keys: seq<seq<F>>, values: seq<seq<F>>) returns (t: Trace<F>)
    requires Finish(m, l, x, q, keys, values) == Some(y)
    ensures IsFinished(m, l, x, q, y, t) && t.projected == projected && t.keys == keys && t.values == values
  {
    hide IsSum, IsGated, ZipWith, Fused, Attend;
    var o := m.attnOutput(l, SubNormed(m, l, Attend(m, q, keys, values))).value;
    var mid := ZipWith(m.add, x, o);
    var gate, up := m.ffnGate(l, m.ffnNorm(l, mid)).value, m.ffnUp(l, m.ffnNorm(l, mid)).value;
    var fused := Fused(m, gate, up);
    var down := m.ffnDown(l, FfnInput(m, l, fused)).value;
    t := Trace(projected, keys, values, o, mid, gate, up, fused, down);
    SumIsZip(m, x, o, mid);
    GatedIsFused(m, gate, up, fused);
    SumIsZip(m, mid, down, y);
  }

  /** The query of token `p`, and its key and value as the cache gives them back. */
  lemma {:induction false} ProjectedIsProject<F>(m: Model<F>, l: nat, xs: seq<seq<F>>, t: Trace<F>)
    requires |t.projected| == |xs| && forall p: nat :: p < |xs| ==> m.qkv(l, m.attnNorm(l, xs[p])) == Some(t.projected[p])
    ensures ProjectAll(m, l, 0, xs).Some?
    ensures forall p: nat :: p < |xs| ==>
      ProjectAll(m, l, 0, xs).value[p]
      == Qkv(m.ropeQ(t.projected[p].q, p), m.ropeK(t.projected[p].k, p), t.projected[p].v)
  {
    ProjectsAt(m, l, 0, xs);
    forall p: nat | p < |xs|
      ensures Project(m, l, 0 + p, xs[p])
           == Some(Qkv(m.ropeQ(t.projected[p].q, p), m.ropeK(t.projected[p].k, p), t.projected[p].v))
    {
    }
  }

  /** The keys and values of the equations are what is read back of the stored projections. */
  lemma ReadBackRows<F>(m: Model<F>, ps: seq<Qkv<F>>, t: Trace<F>)
    requires |t.projected| == |t.keys| == |t.values| == |ps|
    requires forall p: nat :: p < |ps| ==>
      ps[p] == Qkv(m.ropeQ(t.projected[p].q, p), m.ropeK(t.projected[p].k, p), t.projected[p].v)
    ensures t.keys == Keys(m.codec, StoreAll(m, ps)) && t.values == Values(m.codec, StoreAll(m, ps)) <==>
      && (forall p: nat :: p < |ps| ==> IsReadBack(m, m.codec.quantise(m.ropeK(t.projected[p].k, p)), t.keys[p]))
      && (forall p: nat :: p < |ps| ==> IsReadBack(m, m.codec.quantise(t.projected[p].v), t.values[p]))
  {
    hide IsReadBack, ReadRow;
    var keys, values := Keys(m.codec, StoreAll(m, ps)), Values(m.codec, StoreAll(m, ps));
    forall p: nat | p < |ps|
      ensures keys[p] == t.keys[p] <==> IsReadBack(m, m.codec.quantise(m.ropeK(t.projected[p].k, p)), t.keys[p])
      ensures values[p] == t.values[p] <==> IsReadBack(m, m.codec.quantise(t.projected[p].v), t.values[p])
    {
      ReadBackIsReadRow(m, m.codec.quantise(m.ropeK(t.projected[p].k, p)), t.keys[p]);
      ReadBackIsReadRow(m, m.codec.quantise(t.projected[p].v), t.values[p]);
    }
  }

  lemma {:induction false} ProjectsAt<F>(m: Model<F>, l: nat, pos: nat, xs: seq<seq<F>>)
    ensures var ps := ProjectAll(m, l, pos, xs);
      && (ps.Some? <==> forall p: nat :: p < |xs| ==> Project(m, l, pos + p, xs[p]).Some?)
      && (ps.Some? ==> forall p: nat :: p < |xs| ==> Some(ps.value[p]) == Project(m, l, pos + p, xs[p]))
  {
    hide Project;
    if xs != [] {
      var n := |xs| - 1;
      ProjectsAt(m, l, pos, xs[..n]);
      assert forall p: nat :: p < n ==> xs[..n][p] == xs[p];
    }
  }

  /** A layer's output by the program's functions solves the layer equations. */
  lemma FinishSolves<F(!new)>(m: Model<F>, l: nat, xs: seq<seq<F>>, ps: seq<Qkv<F>>, y: seq<F>) returns (t: Trace<F>)
    requires xs != [] && ProjectAll(m, l, 0, xs) == Some(ps)
    requires var s := StoreAll(m, ps);
      Finish(m, l, xs[|xs| - 1], ps[|xs| - 1].q, Keys(m.codec, s), Values(m.codec, s)) == Some(y)
    ensures Solves(m, l, xs, y, t)
  {
    hide Finish, IsFinished, IsReadBack, Keys, Values, StoreAll, Project;
    var s := StoreAll(m, ps);
    var projected := ProjectionsOf(m, l, xs);
    t := FinishIsFinished(m, l, xs[|xs| - 1], ps[|xs| - 1].q, y, projected, Keys(m.codec, s), Values(m.codec, s));
    ProjectedIsProject(m, l, xs, t);
    ReadBackRows(m, ps, t);
  }

  lemma ProjectionsOf<F>(m: Model<F>, l: nat, xs: seq<seq<F>>) returns (projected: seq<Qkv<F>>)
    requires ProjectAll(m, l, 0, xs).Some?
    ensures |projected| == |xs| && forall p: nat :: p < |xs| ==> m.qkv(l, m.attnNorm(l, xs[p])) == Some(projected[p])
  {
    ProjectsAt(m, l, 0, xs);
    forall p: nat | p < |xs| ensures m.qkv(l, m.attnNorm(l, xs[p])).Some? {
      assert Project(m, l, 0 + p, xs[p]).Some?;
    }
    projected := seq(|xs|, p requires 0 <= p < |xs| => m.qkv(l, m.attnNorm(l, xs[p])).value);
  }

  /** And the layer equations have no other solution. */
  lemma SolvesFinish<F(!new)>(m: Model<F>, l: nat, xs: seq<seq<F>>, y: seq<F>, t: Trace<F>) returns (ps: seq<Qkv<F>>)
    requires xs != [] && Solves(m, l, xs, y, t)
    ensures ProjectAll(m, l, 0, xs) == Some(ps) && |ps| == |xs|
    ensures var s := StoreAll(m, ps);
      Finish(m, l, xs[|xs| - 1], ps[|xs| - 1].q, Keys(m.codec, s), Values(m.codec, s)) == Some(y)
  {
    hide Finish, IsFinished, IsReadBack, Keys, Values, StoreAll, Project;
    ProjectedIsProject(m, l, xs, t);
    ps := ProjectAll(m, l, 0, xs).value;
    ReadBackRows(m, ps, t);
    FinishedIsFinish(m, l, xs[|xs| - 1], ps[|xs| - 1].q, y, t);
  }

  // ---------------------------------------------------------------------------
  // Runs
  // ---------------------------------------------------------------------------

  /** Layer `l` takes the states `xs` of all tokens to `ys`, each token seeing itself and those before it. */
  ghost predicate LayerOfAll<F(!new)>(m: Model<F>, l: nat, xs: seq<seq<F>>, ys: seq<seq<F>>) {
    |ys| == |xs| && forall t: nat :: t < |xs| ==> LayerEquations(m, l, xs[..t + 1], ys[t])
  }

  lemma {:induction false} BatchSolves<F(!new)>(m: Model<F>, cap: nat, l: nat, xs: seq<seq<F>>)
    ensures var r := BatchLayer(m, cap, l, 0, xs, []);
      r.Some? ==>
        && LayerOfAll(m, l, xs, r.value.0)
        && ProjectAll(m, l, 0, xs).Some? && r.value.1 == StoreAll(m, ProjectAll(m, l, 0, xs).value)
  {
    hide BatchLayer, LayerStep, ProjectAll, StoreAll, LayerOfAll, LayerEquations;
    if xs == [] {
      NoTokens(m, cap, l);
    } else {
      var n := |xs| - 1;
      assert xs[..n] + [xs[n]] == xs;
      BatchSnoc(m, cap, l, 0, xs[..n], xs[n], []);
      BatchSolves(m, cap, l, xs[..n]);
      var before := BatchLayer(m, cap, l, 0, xs[..n], []);
      if before.Some? {
        LastSolves(m, cap, l, xs, before.value.1);
        var step := LayerStep(m, cap, l, n, xs[n], before.value.1);
        if step.Some? { LayerGrows(m, l, xs, before.value.0, step.value.0); }
      }
    }
  }

  lemma NoTokens<F(!new)>(m: Model<F>, cap: nat, l: nat)
    ensures var r := BatchLayer(m, cap, l, 0, [], []);
      r == Some(([], [])) && LayerOfAll(m, l, [], []) && ProjectAll(m, l, 0, []) == Some([]) && StoreAll(m, []) == []
  {
  }

  lemma LayerGrows<F(!new)>(m: Model<F>, l: nat, xs: seq<seq<F>>, ys: seq<seq<F>>, y: seq<F>)
    requires xs != [] && LayerOfAll(m, l, xs[..|xs| - 1], ys) && LayerEquations(m, l, xs, y)
    ensures LayerOfAll(m, l, xs, ys + [y])
  {
    hide LayerEquations;
    forall t: nat | t < |xs| ensures LayerEquations(m, l, xs[..t + 1], (ys + [y])[t]) {
      if t < |xs| - 1 {
        assert xs[..|xs| - 1][..t + 1] == xs[..t + 1];
      } else {
        assert xs[..t + 1] == xs;
      }
    }
  }

  /** The last token's step solves the equations when the store holds the projections before it. */
  lemma LastSolves<F(!new)>(m: Model<F>, cap: nat, l: nat, xs: seq<seq<F>>, s: seq<KV<F>>)
    requires xs != [] && ProjectAll(m, l, 0, xs[..|xs| - 1]).Some?
    requires s == StoreAll(m, ProjectAll(m, l, 0, xs[..|xs| - 1]).value)
    ensures var step := LayerStep(m, cap, l, |xs| - 1, xs[|xs| - 1], s);
      step.Some? ==>
        && LayerEquations(m, l, xs, step.value.0)
        && ProjectAll(m, l, 0, xs).Some? && step.value.1 == StoreAll(m, ProjectAll(m, l, 0, xs).value)
  {
    hide Finish, Project, Solves;
    var n := |xs| - 1;
    var step := LayerStep(m, cap, l, n, xs[n], s);
    if step.Some? {
      var before, p := ProjectAll(m, l, 0, xs[..n]).value, Project(m, l, n, xs[n]).value;
      var ps := before + [p];
      assert ProjectAll(m, l, 0, xs) == Some(ps);
      assert StoreAll(m, ps) == s + [Store(m, p.k, p.v)];
      var t := FinishSolves(m, l, xs, ps, step.value.0);
    }
  }

  lemma {:induction false} SolvesBatch<F(!new)>(m: Model<F>, cap: nat, l: nat, xs: seq<seq<F>>, ys: seq<seq<F>>)
    requires |xs| <= cap && LayerOfAll(m, l, xs, ys)
    ensures var r := BatchLayer(m, cap, l, 0, xs, []); r.Some? && r.value.0 == ys
  {
    hide Finish, Project, LayerEquations;
    if xs != [] {
      var n := |xs| - 1;
      assert xs[..n] + [xs[n]] == xs && ys[..n] + [ys[n]] == ys;
      forall t: nat | t < n ensures LayerEquations(m, l, xs[..n][..t + 1], ys[..n][t]) {
        assert xs[..n][..t + 1] == xs[..t + 1];
      }
      SolvesBatch(m, cap, l, xs[..n], ys[..n]);
      BatchSolves(m, cap, l, xs[..n]);
      assert xs[..n + 1] == xs;
      LastStep(m, cap, l, xs, ys[n], BatchLayer(m, cap, l, 0, xs[..n], []).value.1);
      BatchSnoc(m, cap, l, 0, xs[..n], xs[n], []);
    }
  }

  lemma LastStep<F(!new)>(m: Model<F>, cap: nat, l: nat, xs: seq<seq<F>>, y: seq<F>, s: seq<KV<F>>)
    requires xs != [] && |xs| <= cap && ProjectAll(m, l, 0, xs[..|xs| - 1]).Some?
    requires s == StoreAll(m, ProjectAll(m, l, 0, xs[..|xs| - 1]).value)
    requires LayerEquations(m, l, xs, y)
    ensures var step := LayerStep(m, cap, l, |xs| - 1, xs[|xs| - 1], s); step.Some? && step.value.0 == y
  {
    hide Finish, Project, Solves;
    var n := |xs| - 1;
    var t: Trace<F> :| Solves(m, l, xs, y, t);
    var ps := SolvesFinish(m, l, xs, y, t);
    var p := Project(m, l, n, xs[n]).value;
    assert ps == ProjectAll(m, l, 0, xs[..n]).value + [p];
    assert StoreAll(m, ps) == s + [Store(m, p.k, p.v)];
  }

  /** States before each of the layers from `l` on and after the last, each layer taking one row to the next. */
  ghost predicate IsTableFrom<F(!new)>(m: Model<F>, l: nat, table: seq<seq<seq<F>>>)
    requires l <= m.dims.nLayers
  {
    && |table| == m.dims.nLayers - l + 1
    && forall i: nat :: i < m.dims.nLayers - l ==> LayerOfAll(m, l + i, table[i], table[i + 1])
  }

  /** The stores hold, layer by layer and position by position, the keys and values of the states in the table. */
  ghost predicate StoresOf<F(!new)>(m: Model<F>, l: nat, table: seq<seq<seq<F>>>, cs: Cache<F>)
    requires l <= m.dims.nLayers && |table| == m.dims.nLayers - l + 1
  {
    && |cs| == m.dims.nLayers - l
    && forall i: nat :: i < |cs| ==> IsStoreOf(m, l + i, table[i], cs[i])
  }

  ghost predicate IsStoreOf<F(!new)>(m: Model<F>, l: nat, xs: seq<seq<F>>, s: seq<KV<F>>) {
    && |s| == |xs|
    && forall p: nat :: p < |xs| ==>
      var pr := m.qkv(l, m.attnNorm(l, xs[p])); pr.Some? && IsStored(m, p, pr.value, s[p])
  }

  lemma StoreAllIsStore<F(!new)>(m: Model<F>, l: nat, xs: seq<seq<F>>)
    ensures var ps := ProjectAll(m, l, 0, xs); ps.Some? ==> IsStoreOf(m, l, xs, StoreAll(m, ps.value))
  {
    ProjectsAt(m, l, 0, xs);
    var ps := ProjectAll(m, l, 0, xs);
    if ps.Some? {
      forall p: nat | p < |xs|
        ensures m.qkv(l, m.attnNorm(l, xs[p])).Some? && IsStored(m, p, m.qkv(l, m.attnNorm(l, xs[p])).value, StoreAll(m, ps.value)[p])
      {
        assert Some(ps.value[p]) == Project(m, l, 0 + p, xs[p]);
      }
    }
  }

  lemma {:induction false} LayersTable<F(!new)>(m: Model<F>, cap: nat, l: nat, xs: seq<seq<F>>, cs: Cache<F>)
      returns (table: seq<seq<seq<F>>>)
    requires l <= m.dims.nLayers && cs == EmptyCache(m.dims.nLayers - l)
    requires Layers(m, cap, l, 0, xs, cs).Some?
    ensures IsTableFrom(m, l, table) && table[0] == xs
    ensures var (zs, cs') := Layers(m, cap, l, 0, xs, cs).value;
      table[m.dims.nLayers - l] == zs && StoresOf(m, l, table, cs')
    decreases |cs|
  {
    hide BatchLayer, LayerOfAll, IsStoreOf, StoresOf;
    if cs == [] {
      NoStores(m, xs);
      table := [xs];
    } else {
      var row := BatchLayer(m, cap, l, 0, xs, []).value;
      BatchSolves(m, cap, l, xs);
      StoreAllIsStore(m, l, xs);
      assert cs[1..] == EmptyCache(m.dims.nLayers - (l + 1));
      var rest := LayersTable(m, cap, l + 1, row.0, cs[1..]);
      table := [xs] + rest;
      TableCons(m, l, xs, rest);
      var (_, more) := Layers(m, cap, l + 1, 0, row.0, cs[1..]).value;
      StoresCons(m, l, xs, rest, row.1, more);
    }
  }

  lemma NoStores<F(!new)>(m: Model<F>, xs: seq<seq<F>>)
    ensures StoresOf(m, m.dims.nLayers, [xs], [])
  {
  }

  lemma TableCons<F(!new)>(m: Model<F>, l: nat, xs: seq<seq<F>>, rest: seq<seq<seq<F>>>)
    requires l < m.dims.nLayers && IsTableFrom(m, l + 1, rest) && LayerOfAll(m, l, xs, rest[0])
    ensures IsTableFrom(m, l, [xs] + rest)
  {
    hide LayerOfAll;
    var table := [xs] + rest;
    forall i: nat | i < m.dims.nLayers - l ensures LayerOfAll(m, l + i, table[i], table[i + 1]) {
      if i > 0 {
        assert LayerOfAll(m, (l + 1) + (i - 1), rest[i - 1], rest[i]);
      }
    }
  }

  lemma StoresCons<F(!new)>(m: Model<F>, l: nat, xs: seq<seq<F>>, rest: seq<seq<seq<F>>>, s: seq<KV<F>>, more: Cache<F>)
    requires l < m.dims.nLayers && |rest| == m.dims.nLayers - l
    requires IsStoreOf(m, l, xs, s) && StoresOf(m, l + 1, rest, more)
    ensures StoresOf(m, l, [xs] + rest, [s] + more)
  {
    hide IsStoreOf;
    var table, cs := [xs] + rest, [s] + more;
    forall i: nat | i < |cs| ensures IsStoreOf(m, l + i, table[i], cs[i]) {
      if i > 0 {
        assert IsStoreOf(m, (l + 1) + (i - 1), rest[i - 1], more[i - 1]);
      }
    }
  }

  lemma {:induction false} TableLayers<F(!new)>(m: Model<F>, cap: nat, l: nat, table: seq<seq<seq<F>>>, cs: Cache<F>)
    requires l <= m.dims.nLayers && cs == EmptyCache(m.dims.nLayers - l)
    requires IsTableFrom(m, l, table) && |table[0]| <= cap
    ensures var r := Layers(m, cap, l, 0, table[0], cs); r.Some? && r.value.0 == table[m.dims.nLayers - l]
    decreases |cs|
  {
    hide BatchLayer, LayerOfAll;
    if cs != [] {
      assert LayerOfAll(m, l + 0, table[0], table[1]);
      SolvesBatch(m, cap, l, table[0], table[1]);
      assert cs[1..] == EmptyCache(m.dims.nLayers - (l + 1));
      forall i: nat | i < m.dims.nLayers - (l + 1) ensures LayerOfAll(m, (l + 1) + i, table[1..][i], table[1..][i + 1]) {
        assert LayerOfAll(m, l + (i + 1), table[i + 1], table[i + 2]);
      }
      SameLength(m, l, table[0], table[1]);
      TableLayers(m, cap, l + 1, table[1..], cs[1..]);
    }
  }

  lemma SameLength<F(!new)>(m: Model<F>, l: nat, xs: seq<seq<F>>, ys: seq<seq<F>>)
    requires LayerOfAll(m, l, xs, ys)
    ensures |ys| == |xs|
  {
  }

  /** The residual states of all tokens before, between and after the layers, from the tokens' embeddings on. */
  ghost predicate IsTable<F(!new)>(m: Model<F>, tokens: seq<nat>, table: seq<seq<seq<F>>>) {
    && IsTableFrom(m, 0, table) && |table[0]| == |tokens|
    && forall t :: 0 <= t < |tokens| ==> tokens[t] < m.dims.vocabSize && m.embed(tokens[t]) == Some(table[0][t])
  }

  lemma {:induction false} EmbedsAt<F>(m: Model<F>, tokens: seq<nat>)
    ensures var xs := EmbedAll(m, tokens);
      && (xs.Some? <==> forall t :: 0 <= t < |tokens| ==> tokens[t] < m.dims.vocabSize && m.embed(tokens[t]).Some?)
      && (xs.Some? ==> forall t :: 0 <= t < |tokens| ==> m.embed(tokens[t]) == Some(xs.value[t]))
  {
    if tokens != [] {
      var n := |tokens| - 1;
      EmbedsAt(m, tokens[..n]);
      assert forall t :: 0 <= t < n ==> tokens[..n][t] == tokens[t];
    }
  }

  /**
    The transformer, declaratively. A run of a token list from an empty cache is a solution
    of the layer equations that starts from the tokens' embeddings: its hidden state is the
    normed last state, and row `p` of layer `l`'s store is the quantised key, rotated to
    position `p`, and value of that layer's state of token `p`.
    */
  lemma RunIsTable<F(!new)>(m: Model<F>, cap: nat, tokens: seq<nat>) returns (table: seq<seq<seq<F>>>)
    requires tokens != [] && RunTokens(m, cap, EmptyCache(m.dims.nLayers), tokens, 0).Some?
    ensures IsTable(m, tokens, table)
    ensures var (h, cs) := RunTokens(m, cap, EmptyCache(m.dims.nLayers), tokens, 0).value;
      && |table[m.dims.nLayers]| == |tokens| && h == m.outputNorm(table[m.dims.nLayers][|tokens| - 1])
      && StoresOf(m, 0, table, cs)
  {
    hide Layers, TokenForward, EmbedAll, IsTableFrom, StoresOf;
    var cs := EmptyCache(m.dims.nLayers);
    LayerMajorIsTokenMajor(m, cap, cs, tokens, 0);
    EmbedsAt(m, tokens);
    var xs := EmbedAll(m, tokens).value;
    LayersShape(m, cap, 0, 0, xs, cs);
    table := LayersTable(m, cap, 0, xs, cs);
  }

  /** Every solution is such a run, so there is no more than one. */
  lemma TableIsRun<F(!new)>(m: Model<F>, cap: nat, tokens: seq<nat>, table: seq<seq<seq<F>>>)
    requires tokens != [] && |tokens| <= cap && IsTable(m, tokens, table)
    ensures var run := RunTokens(m, cap, EmptyCache(m.dims.nLayers), tokens, 0);
      && |table[m.dims.nLayers]| == |tokens|
      && run.Some? && run.value.0 == m.outputNorm(table[m.dims.nLayers][|tokens| - 1])
  {
    hide Layers, TokenForward, EmbedAll, LayerOfAll;
    var cs := EmptyCache(m.dims.nLayers);
    LayerMajorIsTokenMajor(m, cap, cs, tokens, 0);
    EmbedsAt(m, tokens);
    assert EmbedAll(m, tokens).value == table[0];
    TableLayers(m, cap, 0, table, cs);
    LayersShape(m, cap, 0, 0, table[0], cs);
  }

  // ---------------------------------------------------------------------------
  // Without a cache
  // ---------------------------------------------------------------------------

  lemma {:induction false} SameDot<F>(m: Model<F>, codec: Codec<F>, a: seq<F>, b: seq<F>, n: nat)
    requires n <= |a| && n <= |b|
    ensures DotPrefix(m.(codec := codec), a, b, n) == DotPrefix(m, a, b, n)
  {
    if n > 0 { SameDot(m, codec, a, b, n - 1); }
  }

  lemma {:induction false} SameMix<F>(m: Model<F>, codec: Codec<F>, w: seq<F>, vs: seq<seq<F>>, at: nat, n: nat)
    requires n <= |vs|
    ensures Mix(m.(codec := codec), w, vs, at, n) == Mix(m, w, vs, at, n)
  {
    if n > 0 { SameMix(m, codec, w, vs, at, n - 1); }
  }

  lemma SameScores<F>(m: Model<F>, codec: Codec<F>, q: seq<F>, ks: seq<seq<F>>, h: nat)
    requires m.dims.groupSize > 0
    ensures Scores(m.(codec := codec), q, ks, h) == Scores(m, q, ks, h)
  {
    hide DotPrefix;
    var m' := m.(codec := codec);
    var x := Span(q, h * m.dims.headDim, m.dims.headDim);
    forall p | 0 <= p < |ks| ensures Scores(m', q, ks, h)[p] == Scores(m, q, ks, h)[p] {
      var y := Span(ks[p], KvOffset(m.dims, h), m.dims.headDim);
      SameDot(m, codec, x, y, if |x| <= |y| then |x| else |y|);
      assert Dot(m', x, y) == Dot(m, x, y);
    }
  }

  lemma SameAttend<F>(m: Model<F>, codec: Codec<F>, q: seq<F>, ks: seq<seq<F>>, vs: seq<seq<F>>)
    ensures Attend(m.(codec := codec), q, ks, vs) == Attend(m, q, ks, vs)
  {
    hide Scores, Mix, KvOffset;
    var m', n := m.(codec := codec), m.dims.nHeads * m.dims.headDim;
    forall i | 0 <= i < n ensures Attend(m', q, ks, vs)[i] == Attend(m, q, ks, vs)[i] {
      if m.dims.groupSize > 0 && m.dims.headDim > 0 {
        var h, d := i / m.dims.headDim, i % m.dims.headDim;
        SameScores(m, codec, q, ks, h);
        SameMix(m, codec, m.softmax(Scores(m, q, ks, h)), vs, KvOffset(m.dims, h) + d, |vs|);
      }
    }
  }

  lemma SameFinish<F>(m: Model<F>, codec: Codec<F>, l: nat, x: seq<F>, q: seq<F>, ks: seq<seq<F>>, vs: seq<seq<F>>)
    ensures FinishChecked(m.(codec := codec), l, x, q, ks, vs) == FinishChecked(m, l, x, q, ks, vs)
  {
    hide Attend, ZipWith;
    SameAttend(m, codec, q, ks, vs);
  }

  lemma {:induction false} SameProjections<F>(m: Model<F>, codec: Codec<F>, l: nat, pos: nat, xs: seq<seq<F>>)
    ensures ProjectAll(m.(codec := codec), l, pos, xs) == ProjectAll(m, l, pos, xs)
  {
    if xs != [] { SameProjections(m, codec, l, pos, xs[..|xs| - 1]); }
  }

  lemma {:induction false} SameEmbeddings<F>(m: Model<F>, codec: Codec<F>, tokens: seq<nat>)
    ensures EmbedAll(m.(codec := codec), tokens) == EmbedAll(m, tokens)
  {
    if tokens != [] { SameEmbeddings(m, codec, tokens[..|tokens| - 1]); }
  }

  lemma {:induction false} SameFinishes<F>(m: Model<F>, codec: Codec<F>, l: nat, xs: seq<seq<F>>, ps: seq<Qkv<F>>, ks: seq<seq<F>>, vs: seq<seq<F>>)
    requires |xs| == |ps| <= |ks| == |vs|
    ensures FinishCheckedAll(m.(codec := codec), l, xs, ps, ks, vs) == FinishCheckedAll(m, l, xs, ps, ks, vs)
  {
    hide FinishChecked;
    if xs != [] {
      var n := |xs| - 1;
      SameFinishes(m, codec, l, xs[..n], ps[..n], ks, vs);
      SameFinish(m, codec, l, xs[n], ps[n].q, ks[..n + 1], vs[..n + 1]);
    }
  }

  lemma SameLayer<F>(m: Model<F>, codec: Codec<F>, l: nat, xs: seq<seq<F>>)
    ensures ContextLayer(m.(codec := codec), false, l, xs) == ContextLayer(m, false, l, xs)
  {
    hide ProjectAll, FinishCheckedAll;
    SameProjections(m, codec, l, 0, xs);
    var p := ProjectAll(m, l, 0, xs);
    if p.Some? {
      var ks, vs := MapKeys(m, false, p.value), MapValues(m, false, p.value);
      assert MapKeys(m.(codec := codec), false, p.value) == ks && MapValues(m.(codec := codec), false, p.value) == vs;
      SameFinishes(m, codec, l, xs, p.value, ks, vs);
    }
  }

  lemma {:induction false} SameLayers<F>(m: Model<F>, codec: Codec<F>, l: nat, xs: seq<seq<F>>)
    ensures ContextLayers(m.(codec := codec), false, l, xs) == ContextLayers(m, false, l, xs)
    decreases m.dims.nLayers - l
  {
    hide ContextLayer;
    if l < m.dims.nLayers {
      SameLayer(m, codec, l, xs);
      var ys := ContextLayer(m, false, l, xs);
      if ys.Some? { SameLayers(m, codec, l + 1, ys.value); }
    }
  }

  /** The forward without a cache has nothing to do with how a cache would store keys and values. */
  lemma NoCacheIgnoresCodec<F>(m: Model<F>, codec: Codec<F>, tokens: seq<nat>)
    ensures NoCache(m.(codec := codec), false, tokens) == NoCache(m, false, tokens)
  {
    hide EmbedAll, ContextLayers;
    SameEmbeddings(m, codec, tokens);
    var xs := EmbedAll(m, tokens);
    if xs.Some? { SameLayers(m, codec, 0, xs.value); }
  }
}
