/**
  What the three schedules of `Transformer` owe each other over whole prompts:
  splitting a prompt into chunks, and computing without a cache.
  */
module Schedules {
  import opened Wrappers
  import opened Transformer

  // ---------------------------------------------------------------------------
  // Chunked prefill
  // ---------------------------------------------------------------------------

  /** Prefill fails where the token-by-token run fails, and otherwise only on a non-finite last hidden state. */
  lemma PrefillIsTokenRun<F>(m: Model<F>, cap: nat, cs: Cache<F>, tokens: seq<nat>, pos: nat)
    requires Fits(cap, cs) && tokens != []
    ensures var run := RunTokens(m, cap, cs, tokens, pos);
            Prefill(m, cap, cs, tokens, pos) == if run.Some? && m.finite(run.value.0) then run else None
  {
    hide ChunkForward;
    LayerMajorIsTokenMajor(m, cap, cs, tokens, pos);
  }

  /** A run over a concatenation is the run over its parts. */
  lemma {:induction false} RunSplit<F>(m: Model<F>, cap: nat, cs: Cache<F>, a: seq<nat>, b: seq<nat>, pos: nat)
    ensures RunTokens(m, cap, cs, a + b, pos) ==
            match RunTokens(m, cap, cs, a, pos)
            case None => None
            case Some((h, cs1)) => if b == [] then Some((h, cs1)) else RunTokens(m, cap, cs1, b, pos + |a|)
    decreases |b|
  {
    hide TokenForward;
    if b == [] {
      assert a + b == a;
    } else {
      var n := |b| - 1;
      assert (a + b)[..|a + b| - 1] == a + b[..n];
      RunSplit(m, cap, cs, a, b[..n], pos);
    }
  }

  function Flatten(chunks: seq<seq<nat>>): seq<nat> {
    if chunks == [] then [] else Flatten(chunks[..|chunks| - 1]) + chunks[|chunks| - 1]
  }

  /** Prefill chunk after chunk, each starting where the last one stopped. */
  function PrefillChunks<F>(m: Model<F>, cap: nat, cs: Cache<F>, chunks: seq<seq<nat>>, pos: nat): Option<(seq<F>, Cache<F>)> {
    if chunks == [] then Some(([], cs)) else
    var n := |chunks| - 1;
    var (_, cs1) :- PrefillChunks(m, cap, cs, chunks[..n], pos);
    Prefill(m, cap, cs1, chunks[n], pos + |Flatten(chunks[..n])|)
  }

  /** The hidden state after each of the chunks is finite. */
  predicate FiniteAtBoundaries<F>(m: Model<F>, cap: nat, cs: Cache<F>, chunks: seq<seq<nat>>, pos: nat) {
    chunks == [] ||
    (&& FiniteAtBoundaries(m, cap, cs, chunks[..|chunks| - 1], pos)
     && var run := RunTokens(m, cap, cs, Flatten(chunks), pos);
        run.Some? ==> m.finite(run.value.0))
  }

  predicate NonEmptyChunks(chunks: seq<seq<nat>>) {
    forall i :: 0 <= i < |chunks| ==> chunks[i] != []
  }

  /**
    Chunked prefill, for every way of cutting the prompt: it succeeds exactly when the
    token-by-token run does and the hidden state at each cut is finite, and then it
    leaves the same stores and the same hidden state.
    */
  lemma {:induction false} ChunksAreTokenRun<F>(m: Model<F>, cap: nat, cs: Cache<F>, chunks: seq<seq<nat>>, pos: nat)
    requires Fits(cap, cs) && NonEmptyChunks(chunks)
    ensures var run := RunTokens(m, cap, cs, Flatten(chunks), pos);
            PrefillChunks(m, cap, cs, chunks, pos) ==
            if run.Some? && FiniteAtBoundaries(m, cap, cs, chunks, pos) then run else None
  {
    hide TokenForward, Prefill;
    if chunks != [] {
      var n := |chunks| - 1;
      var before := Flatten(chunks[..n]);
      ChunksAreTokenRun(m, cap, cs, chunks[..n], pos);
      RunSplit(m, cap, cs, before, chunks[n], pos);
      var run := RunTokens(m, cap, cs, before, pos);
      if run.Some? {
        RunExtends(m, cap, cs, before, pos);
        PrefillIsTokenRun(m, cap, run.value.1, chunks[n], pos + |before|);
      }
    }
  }

  // ---------------------------------------------------------------------------
  // What a run does to the stores
  // ---------------------------------------------------------------------------

  /** Every layer of `after` is the same layer of `before` with `n` more rows. */
  ghost predicate GrownBy<F>(before: Cache<F>, after: Cache<F>, n: nat) {
    && |after| == |before|
    && forall l :: 0 <= l < |before| ==> |after[l]| == |before[l]| + n && before[l] <= after[l]
  }

  lemma {:induction false} ColumnExtends<F>(m: Model<F>, cap: nat, l: nat, pos: nat, x: seq<F>, cs: Cache<F>)
    ensures var r := Column(m, cap, l, pos, x, cs);
            r.Some? ==> GrownBy(cs, r.value.1, 1) && Fits(cap, r.value.1)
    decreases |cs|
  {
    hide Project, Finish;
    if cs != [] {
      var step := LayerStep(m, cap, l, pos, x, cs[0]);
      if step.Some? {
        ColumnExtends(m, cap, l + 1, pos, step.value.0, cs[1..]);
        var rest := Column(m, cap, l + 1, pos, step.value.0, cs[1..]);
        if rest.Some? {
          var after := [step.value.1] + rest.value.1;
          forall i | 0 <= i < |cs| ensures |after[i]| == |cs[i]| + 1 <= cap && cs[i] <= after[i] {
            if i > 0 {
              assert cs[i] == cs[1..][i - 1] && after[i] == rest.value.1[i - 1];
            }
          }
        }
      }
    }
  }

  /** A successful run appends one row per token to every layer, within capacity, and touches no earlier row. */
  lemma {:induction false} RunExtends<F>(m: Model<F>, cap: nat, cs: Cache<F>, tokens: seq<nat>, pos: nat)
    requires Fits(cap, cs)
    ensures var r := RunTokens(m, cap, cs, tokens, pos);
            r.Some? ==> GrownBy(cs, r.value.1, |tokens|) && Fits(cap, r.value.1)
  {
    hide Column;
    if tokens != [] {
      var n := |tokens| - 1;
      RunExtends(m, cap, cs, tokens[..n], pos);
      var r := RunTokens(m, cap, cs, tokens[..n], pos);
      if r.Some? && tokens[n] < m.dims.vocabSize && m.embed(tokens[n]).Some? {
        ColumnExtends(m, cap, 0, pos + n, m.embed(tokens[n]).value, r.value.1);
      }
    }
  }

  // ---------------------------------------------------------------------------
  // No cache
  // ---------------------------------------------------------------------------

  /** Empty stores for every layer. */
  function EmptyCache<F>(nLayers: nat): (cs: Cache<F>)
    ensures |cs| == nLayers
  {
    seq(nLayers, _ => [])
  }

  /** A key or value as attention sees it: read back from a cache, or as it was computed. */
  function Seen<F>(m: Model<F>, cached: bool, x: seq<F>): seq<F> {
    if cached then RoundTrip(m.codec, x) else x
  }

  function MapKeys<F>(m: Model<F>, cached: bool, ps: seq<Qkv<F>>): (ks: seq<seq<F>>)
    ensures |ks| == |ps|
  {
    seq(|ps|, i requires 0 <= i < |ps| => Seen(m, cached, ps[i].k))
  }

  function MapValues<F>(m: Model<F>, cached: bool, ps: seq<Qkv<F>>): (vs: seq<seq<F>>)
    ensures |vs| == |ps|
  {
    seq(|ps|, i requires 0 <= i < |ps| => Seen(m, cached, ps[i].v))
  }

  /** The no-cache layer also rejects a non-finite residual stream between its two halves. */
  function FinishChecked<F>(m: Model<F>, l: nat, x: seq<F>, q: seq<F>, ks: seq<seq<F>>, vs: seq<seq<F>>): Option<seq<F>> {
    var a :- AttnHalf(m, l, x, q, ks, vs);
    if m.finite(a) then FfnHalf(m, l, a) else None
  }

  function FinishCheckedAll<F>(m: Model<F>, l: nat, xs: seq<seq<F>>, ps: seq<Qkv<F>>, ks: seq<seq<F>>, vs: seq<seq<F>>): (r: Option<seq<seq<F>>>)
    requires |xs| == |ps| <= |ks| == |vs|
    ensures r.Some? ==> |r.value| == |xs|
  {
    if xs == [] then Some([]) else
    var n := |xs| - 1;
    var ys :- FinishCheckedAll(m, l, xs[..n], ps[..n], ks, vs);
    var y :- FinishChecked(m, l, xs[n], ps[n].q, ks[..n + 1], vs[..n + 1]);
    Some(ys + [y])
  }

  /** One layer over the whole context, keys and values passed as `Seen`. */
  function ContextLayer<F>(m: Model<F>, cached: bool, l: nat, xs: seq<seq<F>>): (r: Option<seq<seq<F>>>)
    ensures r.Some? ==> |r.value| == |xs|
  {
    var ps :- ProjectAll(m, l, 0, xs);
    FinishCheckedAll(m, l, xs, ps, MapKeys(m, cached, ps), MapValues(m, cached, ps))
  }

  function ContextLayers<F>(m: Model<F>, cached: bool, l: nat, xs: seq<seq<F>>): (r: Option<seq<seq<F>>>)
    ensures r.Some? ==> |r.value| == |xs|
    decreases m.dims.nLayers - l
  {
    if l >= m.dims.nLayers then Some(xs) else
    var ys :- ContextLayer(m, cached, l, xs);
    ContextLayers(m, cached, l + 1, ys)
  }

  /** The causal forward over the whole context: the last token's final hidden state. */
  function NoCache<F>(m: Model<F>, cached: bool, tokens: seq<nat>): Option<seq<F>> {
    if tokens == [] then None else
    var xs :- EmbedAll(m, tokens);
    var ys :- ContextLayers(m, cached, 0, xs);
    Some(m.outputNorm(ys[|ys| - 1]))
  }

  /** The residual stream after the attention half is finite, for every token of the chunk. */
  predicate MidFinite<F>(m: Model<F>, l: nat, xs: seq<seq<F>>, ps: seq<Qkv<F>>, ks: seq<seq<F>>, vs: seq<seq<F>>)
    requires |xs| == |ps| <= |ks| == |vs|
  {
    xs == [] ||
    var n := |xs| - 1;
    && MidFinite(m, l, xs[..n], ps[..n], ks, vs)
    && var a := AttnHalf(m, l, xs[n], ps[n].q, ks[..n + 1], vs[..n + 1]);
       a.Some? ==> m.finite(a.value)
  }

  /** `MidFinite` in each layer of the context run that the cached run completes. */
  predicate MidFiniteLayers<F>(m: Model<F>, cap: nat, l: nat, xs: seq<seq<F>>)
    decreases m.dims.nLayers - l
  {
    l >= m.dims.nLayers ||
    var ps := ProjectAll(m, l, 0, xs);
    ps.Some? ==>
      && MidFinite(m, l, xs, ps.value, MapKeys(m, true, ps.value), MapValues(m, true, ps.value))
      && var row := BatchLayer(m, cap, l, 0, xs, []);
         row.Some? ==> MidFiniteLayers(m, cap, l + 1, row.value.0)
  }

  lemma {:induction false} CheckedFinish<F>(m: Model<F>, l: nat, xs: seq<seq<F>>, ps: seq<Qkv<F>>, ks: seq<seq<F>>, vs: seq<seq<F>>)
    requires |xs| == |ps| <= |ks| == |vs|
    ensures FinishCheckedAll(m, l, xs, ps, ks, vs) ==
            if MidFinite(m, l, xs, ps, ks, vs) then FinishAll(m, l, 0, xs, ps, ks, vs) else None
  {
    hide AttnHalf, FfnHalf;
    if xs != [] {
      var n := |xs| - 1;
      CheckedFinish(m, l, xs[..n], ps[..n], ks, vs);
      assert 0 + n + 1 == n + 1;
    }
  }

  /** Read back from a store that started empty, the rows are the round-tripped projections. */
  lemma StoredRows<F>(m: Model<F>, ps: seq<Qkv<F>>)
    ensures Keys(m.codec, StoreAll(m, ps)) == MapKeys(m, true, ps)
    ensures Values(m.codec, StoreAll(m, ps)) == MapValues(m, true, ps)
  {
  }

  lemma LayerWithoutCache<F>(m: Model<F>, cap: nat, l: nat, xs: seq<seq<F>>)
    requires |xs| <= cap
    ensures var row := BatchLayer(m, cap, l, 0, xs, []);
            var ps := ProjectAll(m, l, 0, xs);
            ContextLayer(m, true, l, xs) ==
            if row.Some? && ps.Some? && MidFinite(m, l, xs, ps.value, MapKeys(m, true, ps.value), MapValues(m, true, ps.value))
            then Some(row.value.0) else None
  {
    hide AttnHalf, FfnHalf, Finish, Project;
    var ps := ProjectAll(m, l, 0, xs);
    if ps.Some? {
      StoredRows(m, ps.value);
      assert [] + StoreAll(m, ps.value) == StoreAll(m, ps.value);
      CheckedFinish(m, l, xs, ps.value, MapKeys(m, true, ps.value), MapValues(m, true, ps.value));
    }
  }

  lemma {:induction false} LayersWithoutCache<F>(m: Model<F>, cap: nat, l: nat, xs: seq<seq<F>>, cs: Cache<F>)
    requires |xs| <= cap && l <= m.dims.nLayers && cs == EmptyCache(m.dims.nLayers - l)
    ensures var run := Layers(m, cap, l, 0, xs, cs);
            ContextLayers(m, true, l, xs) ==
            if run.Some? && MidFiniteLayers(m, cap, l, xs) then Some(run.value.0) else None
    decreases |cs|
  {
    hide AttnHalf, FfnHalf, Finish, Project, ContextLayer, BatchLayer;
    if cs != [] {
      LayerWithoutCache(m, cap, l, xs);
      var row := BatchLayer(m, cap, l, 0, xs, []);
      if row.Some? {
        BatchProjects(m, cap, l, 0, xs, []);
        assert cs[1..] == EmptyCache(m.dims.nLayers - (l + 1));
        LayersWithoutCache(m, cap, l + 1, row.value.0, cs[1..]);
      }
    }
  }

  lemma BatchProjects<F>(m: Model<F>, cap: nat, l: nat, pos: nat, xs: seq<seq<F>>, s: seq<KV<F>>)
    ensures BatchLayer(m, cap, l, pos, xs, s).Some? ==> ProjectAll(m, l, pos, xs).Some?
  {
    hide AttnHalf, FfnHalf, Finish, Project;
  }

  /**
    Cached decoding is the no-cache causal forward with every key and value passed
    through the cache's quantiser. The no-cache side fails in one more case: when the
    residual stream between two half layers is not finite.
    */
  lemma CachedIsNoCache<F>(m: Model<F>, cap: nat, tokens: seq<nat>)
    requires 0 < |tokens| <= cap
    ensures var run := RunTokens(m, cap, EmptyCache(m.dims.nLayers), tokens, 0);
            var xs := EmbedAll(m, tokens);
            NoCache(m, true, tokens) ==
            if run.Some? && xs.Some? && MidFiniteLayers(m, cap, 0, xs.value) then Some(run.value.0) else None
  {
    hide Layers, RunTokens, EmbedAll, ContextLayers, MidFiniteLayers;
    var cs := EmptyCache(m.dims.nLayers);
    LayerMajorIsTokenMajor(m, cap, cs, tokens, 0);
    var xs := EmbedAll(m, tokens);
    if xs.Some? {
      LayersWithoutCache(m, cap, 0, xs.value, cs);
      LayersShape(m, cap, 0, 0, xs.value, cs);
    }
  }

  /** The cache stores every key and value this model produces without loss. */
  ghost predicate Lossless<F(!new)>(m: Model<F>) {
    forall l: nat, pos: nat, x: seq<F> :: Project(m, l, pos, x).Some? ==>
      var p := Project(m, l, pos, x).value;
      RoundTrip(m.codec, p.k) == p.k && RoundTrip(m.codec, p.v) == p.v
  }

  lemma {:induction false} LosslessRows<F(!new)>(m: Model<F>, l: nat, xs: seq<seq<F>>)
    requires Lossless(m)
    ensures var ps := ProjectAll(m, l, 0, xs);
            ps.Some? ==>
              && MapKeys(m, true, ps.value) == MapKeys(m, false, ps.value)
              && MapValues(m, true, ps.value) == MapValues(m, false, ps.value)
  {
    hide Project;
    if xs != [] {
      var n := |xs| - 1;
      LosslessRows(m, l, xs[..n]);
      var ps := ProjectAll(m, l, 0, xs);
      if ps.Some? {
        var before := ProjectAll(m, l, 0, xs[..n]).value;
        forall i | 0 <= i < |xs|
          ensures MapKeys(m, true, ps.value)[i] == MapKeys(m, false, ps.value)[i]
          ensures MapValues(m, true, ps.value)[i] == MapValues(m, false, ps.value)[i]
        {
          if i < n {
            assert MapKeys(m, true, before)[i] == MapKeys(m, false, before)[i];
            assert MapValues(m, true, before)[i] == MapValues(m, false, before)[i];
          } else {
            assert ps.value[n] == Project(m, l, 0 + n, xs[n]).value;
          }
        }
      }
    }
  }

  lemma {:induction false} LosslessLayers<F(!new)>(m: Model<F>, l: nat, xs: seq<seq<F>>)
    requires Lossless(m)
    ensures ContextLayers(m, true, l, xs) == ContextLayers(m, false, l, xs)
    decreases m.dims.nLayers - l
  {
    hide AttnHalf, FfnHalf, Project;
    if l < m.dims.nLayers {
      LosslessRows(m, l, xs);
      var row := ContextLayer(m, true, l, xs);
      if row.Some? {
        LosslessLayers(m, l + 1, row.value);
      }
    }
  }

  /**
    A lossless cache changes nothing: the no-cache forward over the plain keys and
    values returns the cached run's hidden state, and fails only where that run fails
    or a mid-layer residual is not finite.
    */
  lemma LosslessCache<F(!new)>(m: Model<F>, cap: nat, tokens: seq<nat>)
    requires 0 < |tokens| <= cap
    requires Lossless(m)
    ensures var run := RunTokens(m, cap, EmptyCache(m.dims.nLayers), tokens, 0);
            var xs := EmbedAll(m, tokens);
            NoCache(m, false, tokens) ==
            if run.Some? && xs.Some? && MidFiniteLayers(m, cap, 0, xs.value) then Some(run.value.0) else None
  {
    hide ContextLayers, TokenForward, MidFiniteLayers;
    CachedIsNoCache(m, cap, tokens);
    var xs := EmbedAll(m, tokens);
    if xs.Some? {
      LosslessLayers(m, 0, xs.value);
    }
  }

  // ---------------------------------------------------------------------------
  // Where the schedules part
  // ---------------------------------------------------------------------------

  /**
    A one-layer model over the integers. The residual stream is 0, then 1 between the two
    half layers, then 2; 1 counts as not finite; every final hidden state is `out`. Its
    cache stores vectors as they are.
    */
  function Small(out: int): Model<int> {
    Model(
      Dims(1, 1, 1, 1, 1, 1, 1, 1), VanillaLlama, Codec((x: seq<int>) => Row(x, 0), (q: int, s: int) => q),
      0, (x: int, y: int) => x + y, (x: int, y: int) => x * y, 1, (s: seq<int>) => s,
      (t: nat) => Some([0]),
      (l: nat, x: seq<int>) => x, (l: nat, x: seq<int>) => Some(Qkv(x, x, x)),
      (x: seq<int>, pos: nat) => x, (x: seq<int>, pos: nat) => x,
      (l: nat, x: seq<int>) => x, (l: nat, x: seq<int>) => Some([1]),
      (l: nat, x: seq<int>) => x, (l: nat, x: seq<int>) => Some([0]), (l: nat, x: seq<int>) => Some([0]),
      (x: seq<int>) => x, (l: nat, x: seq<int>) => x, (l: nat, x: seq<int>) => Some([1]),
      (x: seq<int>) => x != [1], (x: seq<int>) => [out], (x: seq<int>) => Some(0))
  }

  lemma SmallHalves(out: int, q: seq<int>, ks: seq<seq<int>>, vs: seq<seq<int>>)
    ensures AttnHalf(Small(out), 0, [0], q, ks, vs) == Some([1])
    ensures FfnHalf(Small(out), 0, [1]) == Some([2])
  {
    hide Attend;
    var m := Small(out);
    assert ZipWith(m.add, [0], [1]) == [1];
    assert ZipWith(m.add, [1], [1]) == [2];
  }

  lemma SmallRuns(out: int)
    ensures var run := RunTokens(Small(out), 1, EmptyCache(1), [0], 0); run.Some? && run.value.0 == [out]
  {
    hide AttnHalf, FfnHalf, Keys, Values;
    var m := Small(out);
    var s' := [] + [Store(m, [0], [0])];
    SmallHalves(out, [0], Keys(m.codec, s'), Values(m.codec, s'));
    var cs := EmptyCache<int>(1);
    assert cs[0] == [] && cs[1..] == [];
    assert LayerStep(m, 1, 0, 0, [0], []) == Some(([2], s'));
    assert [0][..0] == [];
  }

  /** The single-token forward returns a hidden state that prefill rejects. */
  lemma PrefillRefuses()
    ensures RunTokens(Small(1), 1, EmptyCache(1), [0], 0).Some?
    ensures Prefill(Small(1), 1, EmptyCache(1), [0], 0).None?
  {
    hide RunTokens;
    SmallRuns(1);
    PrefillIsTokenRun(Small(1), 1, EmptyCache(1), [0], 0);
  }

  /** Both cached schedules run where the no-cache forward fails, though the cache loses nothing. */
  lemma NoCacheRefuses()
    ensures Lossless(Small(0))
    ensures RunTokens(Small(0), 1, EmptyCache(1), [0], 0).Some? && Prefill(Small(0), 1, EmptyCache(1), [0], 0).Some?
    ensures NoCache(Small(0), false, [0]).None?
  {
    SmallRuns(0);
    PrefillIsTokenRun(Small(0), 1, EmptyCache(1), [0], 0);
    SmallStops();
    SmallIsLossless();
  }

  lemma SmallIsLossless()
    ensures Lossless(Small(0))
  {
    forall x: seq<int> ensures RoundTrip(Small(0).codec, x) == x {
    }
  }

  lemma SmallStops()
    ensures NoCache(Small(0), false, [0]).None?
  {
    hide AttnHalf, FfnHalf;
    var m := Small(0);
    assert [0][..0] == [];
    var none: seq<seq<int>>, xs: seq<seq<int>> := [], [[0]];
    assert none + [[0]] == xs && xs[..0] == none;
    assert EmbedAll(m, []) == Some(none) && EmbedAll(m, [0]) == Some(xs);
    var noPs: seq<Qkv<int>>, ps: seq<Qkv<int>> := [], [Qkv([0], [0], [0])];
    assert noPs + [Qkv([0], [0], [0])] == ps;
    assert ProjectAll(m, 0, 0, none) == Some(noPs) && ProjectAll(m, 0, 0, xs) == Some(ps);
    var ks, vs := MapKeys(m, false, ps), MapValues(m, false, ps);
    SmallHalves(0, [0], ks[..1], vs[..1]);
    assert FinishChecked(m, 0, [0], [0], ks[..1], vs[..1]) == None;
    assert ContextLayer(m, false, 0, xs) == None;
  }
}
