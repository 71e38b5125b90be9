/**
  The transformer as a value: one layer of one token, and the three schedules in
  which the program runs it (one token at a time, layer-major over a chunk, and
  without a cache over the whole context).

  Floating-point work is a `Model` of arbitrary functions, so every equality below
  is exact and relies on no algebraic law of the arithmetic.
  */
module Transformer {
  import opened Wrappers

  /** One quantised vector: integer codes and their scale. */
  datatype Row<F> = Row(codes: seq<int>, scale: F)

  /** The stored key and value of one position in one layer. */
  datatype KV<F> = KV(k: Row<F>, v: Row<F>)

  /** How the cache stores a vector: quantise it whole, read it back element by element. */
  datatype Codec<!F> = Codec(quantise: seq<F> -> Row<F>, dequantise: (int, F) -> F)

  /** The stores of all layers. */
  type Cache<F> = seq<seq<KV<F>>>

  datatype Qkv<F> = Qkv(q: seq<F>, k: seq<F>, v: seq<F>)

  datatype Variant = BitNetSubNorm | VanillaLlama | Qwen2

  datatype Dims = Dims(nLayers: nat, nEmbd: nat, kvDim: nat, nHeads: nat, headDim: nat,
                       groupSize: nat, vocabSize: nat, contextLength: nat)

  /**
    A loaded model. Norms, RoPE and the activation cannot fail once the graph is
    validated; projections can (a non-finite activation, an unsupported type).
    */
  datatype Model<!F> = Model(
    dims: Dims,
    variant: Variant,
    codec: Codec<F>,
    zero: F,
    add: (F, F) -> F,
    mul: (F, F) -> F,
    attnScale: F,
    softmax: seq<F> -> seq<F>,
    embed: nat -> Option<seq<F>>,
    attnNorm: (nat, seq<F>) -> seq<F>,
    qkv: (nat, seq<F>) -> Option<Qkv<F>>,
    ropeQ: (seq<F>, nat) -> seq<F>,
    ropeK: (seq<F>, nat) -> seq<F>,
    attnSubNorm: (nat, seq<F>) -> seq<F>,
    attnOutput: (nat, seq<F>) -> Option<seq<F>>,
    ffnNorm: (nat, seq<F>) -> seq<F>,
    ffnGate: (nat, seq<F>) -> Option<seq<F>>,
    ffnUp: (nat, seq<F>) -> Option<seq<F>>,
    activate: seq<F> -> seq<F>,
    ffnSubNorm: (nat, seq<F>) -> seq<F>,
    ffnDown: (nat, seq<F>) -> Option<seq<F>>,
    finite: seq<F> -> bool,
    outputNorm: seq<F> -> seq<F>,
    predict: seq<F> -> Option<nat>)

  // ---------------------------------------------------------------------------
  // Stored rows
  // ---------------------------------------------------------------------------

  function Store<F>(m: Model<F>, k: seq<F>, v: seq<F>): KV<F> {
    KV(m.codec.quantise(k), m.codec.quantise(v))
  }

  function ReadRow<F>(codec: Codec<F>, r: Row<F>): seq<F> {
    seq(|r.codes|, i requires 0 <= i < |r.codes| => codec.dequantise(r.codes[i], r.scale))
  }

  function Keys<F>(codec: Codec<F>, s: seq<KV<F>>): (ks: seq<seq<F>>)
    ensures |ks| == |s|
  {
    seq(|s|, i requires 0 <= i < |s| => ReadRow(codec, s[i].k))
  }

  function Values<F>(codec: Codec<F>, s: seq<KV<F>>): (vs: seq<seq<F>>)
    ensures |vs| == |s|
  {
    seq(|s|, i requires 0 <= i < |s| => ReadRow(codec, s[i].v))
  }

  /** What a vector becomes by going through the cache. */
  function RoundTrip<F>(codec: Codec<F>, x: seq<F>): seq<F> {
    ReadRow(codec, codec.quantise(x))
  }

  // ---------------------------------------------------------------------------
  // Attention over the rows it is given
  // ---------------------------------------------------------------------------

  /** The `n` elements of `x` from `lo`; empty when they are not all there. */
  function Span<F>(x: seq<F>, lo: nat, n: nat): seq<F> {
    if lo + n <= |x| then x[lo..lo + n] else []
  }

  function DotPrefix<F>(m: Model<F>, a: seq<F>, b: seq<F>, n: nat): F
    requires n <= |a| && n <= |b|
  {
    if n == 0 then m.zero else m.add(DotPrefix(m, a, b, n - 1), m.mul(a[n - 1], b[n - 1]))
  }

  function Dot<F>(m: Model<F>, a: seq<F>, b: seq<F>): F {
    DotPrefix(m, a, b, if |a| <= |b| then |a| else |b|)
  }

  /** Offset of the key/value head that query head `h` shares. */
  function KvOffset(d: Dims, h: nat): nat
    requires d.groupSize > 0
  {
    h / d.groupSize * d.headDim
  }

  function Scores<F>(m: Model<F>, q: seq<F>, ks: seq<seq<F>>, h: nat): (s: seq<F>)
    requires m.dims.groupSize > 0
    ensures |s| == |ks|
  {
    seq(|ks|, p requires 0 <= p < |ks| =>
      m.mul(Dot(m, Span(q, h * m.dims.headDim, m.dims.headDim),
                   Span(ks[p], KvOffset(m.dims, h), m.dims.headDim)), m.attnScale))
  }

  /** Sum over the first `n` rows of weight times element `at`, in row order. */
  function Mix<F>(m: Model<F>, w: seq<F>, vs: seq<seq<F>>, at: nat, n: nat): F
    requires n <= |vs|
  {
    if n == 0 then m.zero
    else m.add(Mix(m, w, vs, at, n - 1),
               m.mul(if n - 1 < |w| then w[n - 1] else m.zero,
                     if at < |vs[n - 1]| then vs[n - 1][at] else m.zero))
  }

  function AttendAt<F>(m: Model<F>, q: seq<F>, ks: seq<seq<F>>, vs: seq<seq<F>>, h: nat, d: nat): F
    requires m.dims.groupSize > 0
  {
    Mix(m, m.softmax(Scores(m, q, ks, h)), vs, KvOffset(m.dims, h) + d, |vs|)
  }

  /** Grouped-query attention of one query over all the given rows. */
  function Attend<F>(m: Model<F>, q: seq<F>, ks: seq<seq<F>>, vs: seq<seq<F>>): (o: seq<F>)
    ensures |o| == m.dims.nHeads * m.dims.headDim
  {
    var n := m.dims.nHeads * m.dims.headDim;
    seq(n, i requires 0 <= i < n =>
      if m.dims.groupSize > 0 && m.dims.headDim > 0
      then AttendAt(m, q, ks, vs, i / m.dims.headDim, i % m.dims.headDim) else m.zero)
  }

  // ---------------------------------------------------------------------------
  // One layer of one token
  // ---------------------------------------------------------------------------

  /** Element-wise combination of two vectors over the first one's length. */
  function ZipWith<F>(f: (F, F) -> F, x: seq<F>, y: seq<F>): (z: seq<F>)
    ensures |z| == |x|
  {
    seq(|x|, i requires 0 <= i < |x| => if i < |y| then f(x[i], y[i]) else x[i])
  }

  function Project<F>(m: Model<F>, l: nat, pos: nat, x: seq<F>): Option<Qkv<F>> {
    var p :- m.qkv(l, m.attnNorm(l, x));
    Some(Qkv(m.ropeQ(p.q, pos), m.ropeK(p.k, pos), p.v))
  }

  function SubNormed<F>(m: Model<F>, l: nat, a: seq<F>): seq<F> {
    if m.variant.BitNetSubNorm? then m.attnSubNorm(l, a) else a
  }

  /** Attention half: mix the rows, project, add to the residual stream. */
  function AttnHalf<F>(m: Model<F>, l: nat, x: seq<F>, q: seq<F>, ks: seq<seq<F>>, vs: seq<seq<F>>): Option<seq<F>> {
    var o :- m.attnOutput(l, SubNormed(m, l, Attend(m, q, ks, vs)));
    Some(ZipWith(m.add, x, o))
  }

  function Fused<F>(m: Model<F>, gate: seq<F>, up: seq<F>): seq<F> {
    ZipWith(m.mul, m.activate(gate), up)
  }

  function FfnInput<F>(m: Model<F>, l: nat, fused: seq<F>): seq<F> {
    if m.variant.BitNetSubNorm? then m.ffnSubNorm(l, fused) else fused
  }

  /** Feed-forward half, second residual, and the finiteness check. */
  function FfnHalf<F>(m: Model<F>, l: nat, x: seq<F>): Option<seq<F>> {
    var n := m.ffnNorm(l, x);
    var gate :- m.ffnGate(l, n);
    var up :- m.ffnUp(l, n);
    var down :- m.ffnDown(l, FfnInput(m, l, Fused(m, gate, up)));
    var y := ZipWith(m.add, x, down);
    if m.finite(y) then Some(y) else None
  }

  function Finish<F>(m: Model<F>, l: nat, x: seq<F>, q: seq<F>, ks: seq<seq<F>>, vs: seq<seq<F>>): Option<seq<F>> {
    var a :- AttnHalf(m, l, x, q, ks, vs);
    FfnHalf(m, l, a)
  }

  // ---------------------------------------------------------------------------
  // Schedule 1: one token at a time
  // ---------------------------------------------------------------------------

  /** One layer of one token against that layer's store: append, then attend to everything stored. */
  function LayerStep<F>(m: Model<F>, cap: nat, l: nat, pos: nat, x: seq<F>, s: seq<KV<F>>): Option<(seq<F>, seq<KV<F>>)> {
    var p :- Project(m, l, pos, x);
    if |s| >= cap then None else
    var s' := s + [Store(m, p.k, p.v)];
    var y :- Finish(m, l, x, p.q, Keys(m.codec, s'), Values(m.codec, s'));
    Some((y, s'))
  }

  /** All layers from `l` on for one token; `cs` holds the stores of those layers. */
  function Column<F>(m: Model<F>, cap: nat, l: nat, pos: nat, x: seq<F>, cs: Cache<F>): Option<(seq<F>, Cache<F>)>
    decreases |cs|
  {
    if cs == [] then Some((x, [])) else
    var (y, s) :- LayerStep(m, cap, l, pos, x, cs[0]);
    var (z, rest) :- Column(m, cap, l + 1, pos, y, cs[1..]);
    Some((z, [s] + rest))
  }

  /** The cached single-token forward: final hidden state and the stores after it. */
  function TokenForward<F>(m: Model<F>, cap: nat, cs: Cache<F>, token: nat, pos: nat): Option<(seq<F>, Cache<F>)> {
    if token >= m.dims.vocabSize then None else
    var x :- m.embed(token);
    var (y, cs') :- Column(m, cap, 0, pos, x, cs);
    Some((m.outputNorm(y), cs'))
  }

  /** Tokens in order, one forward each; the hidden state is the last token's. */
  function RunTokens<F>(m: Model<F>, cap: nat, cs: Cache<F>, tokens: seq<nat>, pos: nat): Option<(seq<F>, Cache<F>)> {
    if tokens == [] then Some(([], cs)) else
    var n := |tokens| - 1;
    var (_, cs') :- RunTokens(m, cap, cs, tokens[..n], pos);
    TokenForward(m, cap, cs', tokens[n], pos + n)
  }

  // ---------------------------------------------------------------------------
  // Schedule 2: layer-major over a chunk
  // ---------------------------------------------------------------------------

  function ProjectAll<F>(m: Model<F>, l: nat, pos: nat, xs: seq<seq<F>>): (r: Option<seq<Qkv<F>>>)
    ensures r.Some? ==> |r.value| == |xs|
  {
    if xs == [] then Some([]) else
    var n := |xs| - 1;
    var ps :- ProjectAll(m, l, pos, xs[..n]);
    var p :- Project(m, l, pos + n, xs[n]);
    Some(ps + [p])
  }

  function StoreAll<F>(m: Model<F>, ps: seq<Qkv<F>>): (s: seq<KV<F>>)
    ensures |s| == |ps|
  {
    seq(|ps|, i requires 0 <= i < |ps| => Store(m, ps[i].k, ps[i].v))
  }

  /** Finish every token of the chunk; token `i` sees the first `base + i + 1` rows of the filled store. */
  function FinishAll<F>(m: Model<F>, l: nat, base: nat, xs: seq<seq<F>>, ps: seq<Qkv<F>>, ks: seq<seq<F>>, vs: seq<seq<F>>): (r: Option<seq<seq<F>>>)
    requires |xs| == |ps| && base + |xs| <= |ks| == |vs|
    ensures r.Some? ==> |r.value| == |xs|
  {
    if xs == [] then Some([]) else
    var n := |xs| - 1;
    var ys :- FinishAll(m, l, base, xs[..n], ps[..n], ks, vs);
    var y :- Finish(m, l, xs[n], ps[n].q, ks[..base + n + 1], vs[..base + n + 1]);
    Some(ys + [y])
  }

  /** One layer of a whole chunk: project and append every token, then attend token by token. */
  function BatchLayer<F>(m: Model<F>, cap: nat, l: nat, pos: nat, xs: seq<seq<F>>, s: seq<KV<F>>): (r: Option<(seq<seq<F>>, seq<KV<F>>)>)
    ensures r.Some? ==> |r.value.0| == |xs| && |r.value.1| == |s| + |xs| <= cap && s <= r.value.1
  {
    var ps :- ProjectAll(m, l, pos, xs);
    if |s| + |xs| > cap then None else
    var full := s + StoreAll(m, ps);
    var ys :- FinishAll(m, l, |s|, xs, ps, Keys(m.codec, full), Values(m.codec, full));
    Some((ys, full))
  }

  /** All layers from `l` on, layer-major. */
  function Layers<F>(m: Model<F>, cap: nat, l: nat, pos: nat, xs: seq<seq<F>>, cs: Cache<F>): Option<(seq<seq<F>>, Cache<F>)>
    decreases |cs|
  {
    if cs == [] then Some((xs, [])) else
    var (ys, s) :- BatchLayer(m, cap, l, pos, xs, cs[0]);
    var (zs, rest) :- Layers(m, cap, l + 1, pos, ys, cs[1..]);
    Some((zs, [s] + rest))
  }

  function EmbedAll<F>(m: Model<F>, tokens: seq<nat>): (r: Option<seq<seq<F>>>)
    ensures r.Some? ==> |r.value| == |tokens|
  {
    if tokens == [] then Some([]) else
    var n := |tokens| - 1;
    var xs :- EmbedAll(m, tokens[..n]);
    if tokens[n] >= m.dims.vocabSize then None else
    var x :- m.embed(tokens[n]);
    Some(xs + [x])
  }

  /** A chunk run layer-major: the last token's final hidden state and the stores. */
  function LayerMajor<F>(m: Model<F>, cap: nat, cs: Cache<F>, tokens: seq<nat>, pos: nat): Option<(seq<F>, Cache<F>)> {
    var xs :- EmbedAll(m, tokens);
    ChunkForward(m, cap, cs, xs, pos)
  }

  /** The layer loop of a chunk and the output norm of its last token. */
  function ChunkForward<F>(m: Model<F>, cap: nat, cs: Cache<F>, xs: seq<seq<F>>, pos: nat): Option<(seq<F>, Cache<F>)> {
    var (ys, cs') :- Layers(m, cap, 0, pos, xs, cs);
    Some((if |ys| == 0 then [] else m.outputNorm(ys[|ys| - 1]), cs'))
  }

  /** The prefill of a non-empty chunk: layer-major, and the hidden state it returns must be finite. */
  function Prefill<F>(m: Model<F>, cap: nat, cs: Cache<F>, tokens: seq<nat>, pos: nat): Option<(seq<F>, Cache<F>)> {
    var (h, cs') :- LayerMajor(m, cap, cs, tokens, pos);
    if tokens != [] && m.finite(h) then Some((h, cs')) else None
  }

  // ---------------------------------------------------------------------------
  // The schedules agree
  // ---------------------------------------------------------------------------

  /** Keys and values of a longer store start with those of a shorter one. */
  lemma ReadPrefix<F>(codec: Codec<F>, s: seq<KV<F>>, n: nat)
    requires n <= |s|
    ensures Keys(codec, s)[..n] == Keys(codec, s[..n])
    ensures Values(codec, s)[..n] == Values(codec, s[..n])
  {
  }

  /** Rows beyond a token's window do not reach it. */
  lemma {:induction false} FinishAllLocal<F>(m: Model<F>, l: nat, base: nat, xs: seq<seq<F>>, ps: seq<Qkv<F>>,
      ks: seq<seq<F>>, vs: seq<seq<F>>, ks': seq<seq<F>>, vs': seq<seq<F>>)
    requires |xs| == |ps| && base + |xs| <= |ks| == |vs| && ks <= ks' && vs <= vs' && |ks'| == |vs'|
    ensures FinishAll(m, l, base, xs, ps, ks, vs) == FinishAll(m, l, base, xs, ps, ks', vs')
  {
    hide Finish;
    if xs != [] {
      var n := |xs| - 1;
      FinishAllLocal(m, l, base, xs[..n], ps[..n], ks, vs, ks', vs');
      assert ks[..base + n + 1] == ks'[..base + n + 1];
      assert vs[..base + n + 1] == vs'[..base + n + 1];
    }
  }

  /** Appending the last token's row first, or finishing the others first: the others finish alike. */
  lemma {:induction false} FinishAllSnoc<F>(m: Model<F>, l: nat, xs: seq<seq<F>>, x: seq<F>, ps: seq<Qkv<F>>, p: Qkv<F>, s: seq<KV<F>>)
    requires |xs| == |ps|
    ensures var full := s + StoreAll(m, ps); var full' := full + [Store(m, p.k, p.v)];
            FinishAll(m, l, |s|, xs + [x], ps + [p], Keys(m.codec, full'), Values(m.codec, full')) ==
            match FinishAll(m, l, |s|, xs, ps, Keys(m.codec, full), Values(m.codec, full))
            case None => None
            case Some(ys) =>
              match Finish(m, l, x, p.q, Keys(m.codec, full'), Values(m.codec, full'))
              case None => None
              case Some(y) => Some(ys + [y])
  {
    hide Finish;
    var full := s + StoreAll(m, ps);
    var full' := full + [Store(m, p.k, p.v)];
    assert (xs + [x])[..|xs|] == xs && (ps + [p])[..|xs|] == ps;
    ReadPrefix(m.codec, full', |full|);
    assert full'[..|full|] == full;
    FinishAllLocal(m, l, |s|, xs, ps, Keys(m.codec, full), Values(m.codec, full), Keys(m.codec, full'), Values(m.codec, full'));
    assert Keys(m.codec, full')[..|s| + |xs| + 1] == Keys(m.codec, full');
    assert Values(m.codec, full')[..|s| + |xs| + 1] == Values(m.codec, full');
  }

  /**
    One more token at the end of the chunk: appending it before anyone attends gives
    the same layer as finishing the chunk first and then running that token on its own.
    */
  lemma {:induction false} BatchSnoc<F>(m: Model<F>, cap: nat, l: nat, pos: nat, xs: seq<seq<F>>, x: seq<F>, s: seq<KV<F>>)
    ensures BatchLayer(m, cap, l, pos, xs + [x], s) ==
            match BatchLayer(m, cap, l, pos, xs, s)
            case None => None
            case Some((ys, s1)) =>
              match LayerStep(m, cap, l, pos + |xs|, x, s1)
              case None => None
              case Some((y, s2)) => Some((ys + [y], s2))
  {
    hide Finish, Project;
    assert (xs + [x])[..|xs|] == xs;
    var pre := ProjectAll(m, l, pos, xs);
    var p := Project(m, l, pos + |xs|, x);
    if pre.Some? && p.Some? {
      FinishAllSnoc(m, l, xs, x, pre.value, p.value, s);
      assert ProjectAll(m, l, pos, xs + [x]) == Some(pre.value + [p.value]);
      assert s + StoreAll(m, pre.value + [p.value]) == s + StoreAll(m, pre.value) + [Store(m, p.value.k, p.value.v)];
    }
  }

  /** One more token through all layers: layer-major over the chunk, then that token's column. */
  lemma {:induction false} LayersSnoc<F>(m: Model<F>, cap: nat, l: nat, pos: nat, xs: seq<seq<F>>, x: seq<F>, cs: Cache<F>)
    ensures Layers(m, cap, l, pos, xs + [x], cs) ==
            match Layers(m, cap, l, pos, xs, cs)
            case None => None
            case Some((zs, cs1)) =>
              match Column(m, cap, l, pos + |xs|, x, cs1)
              case None => None
              case Some((z, cs2)) => Some((zs + [z], cs2))
    decreases |cs|
  {
    hide BatchLayer, LayerStep;
    if cs != [] {
      BatchSnoc(m, cap, l, pos, xs, x, cs[0]);
      LayersShape(m, cap, l, pos, xs, cs);
      var row := BatchLayer(m, cap, l, pos, xs, cs[0]);
      if row.Some? {
        var (ys, s1) := row.value;
        var step := LayerStep(m, cap, l, pos + |xs|, x, s1);
        var rest := Layers(m, cap, l + 1, pos, ys, cs[1..]);
        if rest.Some? {
          assert ([s1] + rest.value.1)[1..] == rest.value.1;
        }
        if step.Some? {
          LayersSnoc(m, cap, l + 1, pos, ys, step.value.0, cs[1..]);
        }
      }
    }
  }

  /** A run over the layers keeps the number of tokens and of layers. */
  lemma {:induction false} LayersShape<F>(m: Model<F>, cap: nat, l: nat, pos: nat, xs: seq<seq<F>>, cs: Cache<F>)
    ensures var r := Layers(m, cap, l, pos, xs, cs); r.Some? ==> |r.value.0| == |xs| && |r.value.1| == |cs|
    decreases |cs|
  {
    hide BatchLayer;
    if cs != [] {
      var row := BatchLayer(m, cap, l, pos, xs, cs[0]);
      if row.Some? {
        LayersShape(m, cap, l + 1, pos, row.value.0, cs[1..]);
      }
    }
  }

  predicate Fits<F>(cap: nat, cs: Cache<F>) {
    forall l :: 0 <= l < |cs| ==> |cs[l]| <= cap
  }

  lemma {:induction false} EmptyChunk<F>(m: Model<F>, cap: nat, l: nat, pos: nat, cs: Cache<F>)
    requires Fits(cap, cs)
    ensures Layers(m, cap, l, pos, [], cs) == Some(([], cs))
    decreases |cs|
  {
    if cs != [] {
      EmptyChunk(m, cap, l + 1, pos, cs[1..]);
      assert BatchLayer(m, cap, l, pos, [], cs[0]) == Some(([], cs[0] + StoreAll(m, [])));
      assert cs[0] + StoreAll(m, []) == cs[0];
      assert [cs[0]] + cs[1..] == cs;
    }
  }

  /**
    Loop interchange, layers by tokens. Embedding the chunk and running it layer-major
    gives the stores, and after the output norm the hidden state, of running its tokens
    one by one; it fails exactly when that run fails.
    */
  lemma {:induction false} LayerMajorIsTokenMajor<F>(m: Model<F>, cap: nat, cs: Cache<F>, tokens: seq<nat>, pos: nat)
    requires Fits(cap, cs)
    ensures RunTokens(m, cap, cs, tokens, pos) == LayerMajor(m, cap, cs, tokens, pos)
  {
    if tokens == [] {
      EmptyChunk(m, cap, 0, pos, cs);
    } else {
      LayerMajorIsTokenMajor(m, cap, cs, tokens[..|tokens| - 1], pos);
      LayerMajorSnoc(m, cap, cs, tokens, pos);
    }
  }

  lemma {:induction false} ChunkSnoc<F>(m: Model<F>, cap: nat, cs: Cache<F>, xs: seq<seq<F>>, x: seq<F>, pos: nat)
    ensures ChunkForward(m, cap, cs, xs + [x], pos) ==
            match ChunkForward(m, cap, cs, xs, pos)
            case None => None
            case Some((_, cs1)) =>
              match Column(m, cap, 0, pos + |xs|, x, cs1)
              case None => None
              case Some((y, cs2)) => Some((m.outputNorm(y), cs2))
  {
    LayersSnoc(m, cap, 0, pos, xs, x, cs);
  }

  /** Layer-major over a chunk is layer-major over all but its last token, then one forward. */
  lemma {:induction false} LayerMajorSnoc<F>(m: Model<F>, cap: nat, cs: Cache<F>, tokens: seq<nat>, pos: nat)
    requires tokens != []
    ensures LayerMajor(m, cap, cs, tokens, pos) ==
            match LayerMajor(m, cap, cs, tokens[..|tokens| - 1], pos)
            case None => None
            case Some((_, cs1)) => TokenForward(m, cap, cs1, tokens[|tokens| - 1], pos + (|tokens| - 1))
  {
    hide BatchLayer, LayerStep;
    var n := |tokens| - 1;
    var pre := EmbedAll(m, tokens[..n]);
    if pre.Some? && tokens[n] < m.dims.vocabSize && m.embed(tokens[n]).Some? {
      ChunkSnoc(m, cap, cs, pre.value, m.embed(tokens[n]).value, pos);
    }
  }
}
