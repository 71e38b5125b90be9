/** Greedy generation with and without the cache, and why the two agree. */
module Generate {
  import opened Wrappers
  import opened Transformer
  import opened Schedules
  import opened KvCache
  import opened CachedForward
  import NoCacheForward

  // ---------------------------------------------------------------------------
  // Budget
  // ---------------------------------------------------------------------------

  function GeneratedPositions(maxNew: nat): nat {
    if maxNew == 0 then 0 else maxNew - 1
  }

  /** The check before generation; the last token is returned but never forwarded. */
  predicate WithinBudget(promptLen: nat, maxNew: nat, maxSeqLen: Option<nat>, contextLength: nat) {
    && (maxSeqLen.Some? ==> maxSeqLen.value <= contextLength)
    && promptLen + GeneratedPositions(maxNew) <= USIZE_MAX
    && promptLen + GeneratedPositions(maxNew) <= contextLength
    && (maxSeqLen.Some? ==> promptLen + GeneratedPositions(maxNew) <= maxSeqLen.value)
  }

  /**
    For a prompt and at least one token to come, the cache fits exactly when it is no larger
    than the context and holds all but the last of them: one position less is refused.
    */
  lemma BudgetIsExact(promptLen: nat, maxNew: nat, cap: nat, contextLength: nat)
    requires maxNew > 0 && contextLength <= USIZE_MAX
    ensures WithinBudget(promptLen, maxNew, Some(cap), contextLength)
       <==> promptLen + maxNew <= cap + 1 && cap <= contextLength
    ensures WithinBudget(promptLen, maxNew, None, contextLength) <==> promptLen + maxNew <= contextLength + 1
    ensures WithinBudget(promptLen, 0, None, contextLength) <==> promptLen <= contextLength
  {
  }

  predicate PromptOk<F>(m: Model<F>, prompt: seq<nat>) {
    prompt != [] && forall i :: 0 <= i < |prompt| ==> prompt[i] < m.dims.vocabSize
  }

  // ---------------------------------------------------------------------------
  // The two generators
  // ---------------------------------------------------------------------------

  /** Recompute the context for every token; `cached` says how attention sees keys and values. */
  function FromContext<F>(m: Model<F>, cached: bool, context: seq<nat>, steps: nat, eos: Option<nat>): Option<seq<nat>>
    decreases steps
  {
    if steps == 0 then Some([]) else
    var h :- NoCache(m, cached, context);
    var next :- m.predict(h);
    if Some(next) == eos then Some([]) else
    var rest :- FromContext(m, cached, context + [next], steps - 1, eos);
    Some([next] + rest)
  }

  /** Continue from a hidden state and the stores it was computed with. */
  function FromCache<F>(m: Model<F>, cap: nat, cs: Cache<F>, h: seq<F>, pos: nat, steps: nat, eos: Option<nat>): Option<seq<nat>>
    decreases steps
  {
    if steps == 0 then Some([]) else
    var next :- m.predict(h);
    if Some(next) == eos then Some([]) else
    if steps == 1 then Some([next]) else
    var (h', cs') :- TokenForward(m, cap, cs, next, pos);
    var rest :- FromCache(m, cap, cs', h', pos + 1, steps - 1, eos);
    Some([next] + rest)
  }

  function GreedyNoCache<F>(m: Model<F>, prompt: seq<nat>, maxNew: nat, eos: Option<nat>): Option<seq<nat>> {
    if !PromptOk(m, prompt) || !WithinBudget(|prompt|, maxNew, None, m.dims.contextLength) then None
    else FromContext(m, false, prompt, maxNew, eos)
  }

  /** Prefill, then decode, with a cache of `room` positions and no check before it. */
  function GreedyWithRoom<F>(m: Model<F>, prompt: seq<nat>, maxNew: nat, eos: Option<nat>, room: nat): Option<seq<nat>> {
    var (h, cs) :- Prefill(m, room, EmptyCache(m.dims.nLayers), prompt, 0);
    FromCache(m, room, cs, h, |prompt|, maxNew, eos)
  }

  function GreedyWithCache<F>(m: Model<F>, prompt: seq<nat>, maxNew: nat, eos: Option<nat>, cap: nat): Option<seq<nat>> {
    if !PromptOk(m, prompt) || !WithinBudget(|prompt|, maxNew, Some(cap), m.dims.contextLength) then None
    else if cap * m.dims.kvDim > USIZE_MAX then None
    else GreedyWithRoom(m, prompt, maxNew, eos, cap)
  }

  // ---------------------------------------------------------------------------
  // They agree
  // ---------------------------------------------------------------------------

  /** Where the cached generator stands after forwarding `context`. */
  ghost predicate Standing<F>(m: Model<F>, cap: nat, context: seq<nat>, h: seq<F>, cs: Cache<F>) {
    RunTokens(m, cap, EmptyCache(m.dims.nLayers), context, 0) == Some((h, cs))
  }

  lemma StandingNext<F>(m: Model<F>, cap: nat, context: seq<nat>, h: seq<F>, cs: Cache<F>, next: nat)
    requires Standing(m, cap, context, h, cs)
    ensures RunTokens(m, cap, EmptyCache(m.dims.nLayers), context + [next], 0) == TokenForward(m, cap, cs, next, |context|)
  {
    hide TokenForward;
    assert (context + [next])[..|context|] == context;
  }

  /** The check between the half layers, which only the no-cache forward makes, passes on this context. */
  predicate MidFiniteContext<F>(m: Model<F>, cap: nat, context: seq<nat>) {
    var xs := EmbedAll(m, context);
    xs.Some? ==> MidFiniteLayers(m, cap, 0, xs.value)
  }

  /** That check passes on every context the cached generator goes through. */
  predicate StaysMidFinite<F>(m: Model<F>, cap: nat, context: seq<nat>, cs: Cache<F>, h: seq<F>, steps: nat, eos: Option<nat>)
    decreases steps
  {
    steps == 0 ||
    (&& MidFiniteContext(m, cap, context)
     && var next := m.predict(h);
        next.Some? && next != eos && steps > 1 ==>
          var step := TokenForward(m, cap, cs, next.value, |context|);
          step.Some? ==> StaysMidFinite(m, cap, context + [next.value], step.value.1, step.value.0, steps - 1, eos))
  }

  /** A run of the cached decoder has embedded all its tokens. */
  lemma RunEmbeds<F>(m: Model<F>, cap: nat, cs: Cache<F>, tokens: seq<nat>)
    requires Fits(cap, cs)
    ensures RunTokens(m, cap, cs, tokens, 0).Some? ==> EmbedAll(m, tokens).Some?
  {
    hide Layers, TokenForward;
    if tokens != [] {
      LayerMajorIsTokenMajor(m, cap, cs, tokens, 0);
    }
  }

  /** The no-cache forward over a context, as the cached run and that one check. */
  lemma ContextForward<F>(m: Model<F>, cap: nat, context: seq<nat>)
    requires 0 < |context| <= cap
    ensures var run := RunTokens(m, cap, EmptyCache(m.dims.nLayers), context, 0);
            NoCache(m, true, context) == if run.Some? && MidFiniteContext(m, cap, context) then Some(run.value.0) else None
  {
    hide TokenForward, RunTokens, NoCache, MidFiniteLayers, EmbedAll;
    CachedIsNoCache(m, cap, context);
    RunEmbeds(m, cap, EmptyCache(m.dims.nLayers), context);
  }

  /**
    From the same context, the no-cache generator (reading keys and values as the cache
    stores them) does what the cached one does, failures included, in every case but one:
    it also fails when the check between the half layers does.
    */
  lemma {:induction false} ContextAgreesWithCache<F>(m: Model<F>, cap: nat, context: seq<nat>, h: seq<F>, cs: Cache<F>, steps: nat, eos: Option<nat>)
    requires 0 < |context| && |context| + GeneratedPositions(steps) <= cap
    requires Standing(m, cap, context, h, cs)
    ensures FromContext(m, true, context, steps, eos) ==
            if StaysMidFinite(m, cap, context, cs, h, steps, eos) then FromCache(m, cap, cs, h, |context|, steps, eos) else None
    decreases steps
  {
    hide TokenForward, RunTokens, NoCache, MidFiniteContext;
    if steps > 0 {
      ContextForward(m, cap, context);
      var next := m.predict(h);
      if next.Some? && next != eos && MidFiniteContext(m, cap, context) {
        if steps > 1 {
          StandingNext(m, cap, context, h, cs, next.value);
          var step := TokenForward(m, cap, cs, next.value, |context|);
          if step.Some? {
            ContextAgreesWithCache(m, cap, context + [next.value], step.value.0, step.value.1, steps - 1, eos);
          } else {
            ContextForward(m, cap, context + [next.value]);
          }
        } else {
          assert FromContext(m, true, context + [next.value], 0, eos) == Some([]);
          assert [next.value] + [] == [next.value];
        }
      }
    }
  }

  /** When the cache loses nothing, how attention sees keys and values makes no difference. */
  lemma {:induction false} LosslessContext<F(!new)>(m: Model<F>, context: seq<nat>, steps: nat, eos: Option<nat>)
    requires Lossless(m)
    ensures FromContext(m, true, context, steps, eos) == FromContext(m, false, context, steps, eos)
    decreases steps
  {
    hide ContextLayers;
    if steps > 0 {
      var xs := EmbedAll(m, context);
      if xs.Some? {
        LosslessLayers(m, 0, xs.value);
      }
      assert NoCache(m, true, context) == NoCache(m, false, context);
      var h := NoCache(m, true, context);
      if h.Some? && m.predict(h.value).Some? {
        LosslessContext(m, context + [m.predict(h.value).value], steps - 1, eos);
      }
    }
  }

  /** The prompt runs, and its last hidden state is finite; only the prefill checks that. */
  predicate PromptPrefills<F>(m: Model<F>, cap: nat, prompt: seq<nat>) {
    var run := RunTokens(m, cap, EmptyCache(m.dims.nLayers), prompt, 0);
    run.Some? && m.finite(run.value.0)
  }

  /** The capacity passes the budget check and the cache's own size check. */
  predicate CapacityPasses<F>(m: Model<F>, prompt: seq<nat>, maxNew: nat, cap: nat) {
    WithinBudget(|prompt|, maxNew, Some(cap), m.dims.contextLength) && cap * m.dims.kvDim <= USIZE_MAX
  }

  /** The check between the half layers passes on every context of the generation. */
  predicate GenerationStaysMidFinite<F>(m: Model<F>, prompt: seq<nat>, maxNew: nat, eos: Option<nat>, cap: nat) {
    var run := RunTokens(m, cap, EmptyCache(m.dims.nLayers), prompt, 0);
    run.Some? ==> StaysMidFinite(m, cap, prompt, run.value.1, run.value.0, maxNew, eos)
  }

  /**
    Greedy decoding with a lossless cache and without one, for every prompt, limit, end
    token and capacity. If both succeed they return the same ids. Where the plain
    generator succeeds the cached one fails exactly when the capacity does not pass, the
    prompt does not run or its hidden state is not finite; and a prompt that was needed
    for a token does run. Where the cached one succeeds the plain one fails exactly when
    a residual between two half layers is not finite.
    */
  lemma GreedyAgree<F(!new)>(m: Model<F>, prompt: seq<nat>, maxNew: nat, eos: Option<nat>, cap: nat)
    requires Lossless(m)
    ensures var plain := GreedyNoCache(m, prompt, maxNew, eos);
            var cached := GreedyWithCache(m, prompt, maxNew, eos, cap);
            && (plain.Some? && cached.Some? ==> cached == plain)
            && (plain.Some? ==> (cached.Some? <==> CapacityPasses(m, prompt, maxNew, cap) && PromptPrefills(m, cap, prompt)))
            && (plain.Some? && maxNew > 0 && CapacityPasses(m, prompt, maxNew, cap)
                ==> RunTokens(m, cap, EmptyCache(m.dims.nLayers), prompt, 0).Some?)
            && (cached.Some? ==> (plain.Some? <==> GenerationStaysMidFinite(m, prompt, maxNew, eos, cap)))
  {
    hide TokenForward, LayerMajor, NoCache, RunTokens, FromCache, FromContext, StaysMidFinite, Lossless;
    if PromptOk(m, prompt) && CapacityPasses(m, prompt, maxNew, cap) {
      var cs := EmptyCache(m.dims.nLayers);
      LosslessContext(m, prompt, maxNew, eos);
      PrefillIsTokenRun(m, cap, cs, prompt, 0);
      var run := RunTokens(m, cap, cs, prompt, 0);
      if run.Some? {
        ContextAgreesWithCache(m, cap, prompt, run.value.0, run.value.1, maxNew, eos);
      } else if maxNew > 0 {
        ContextForward(m, cap, prompt);
        NeedsForward(m, prompt, maxNew, eos);
      }
    }
  }

  /** A generator that is to produce anything needs its first forward. */
  lemma NeedsForward<F>(m: Model<F>, prompt: seq<nat>, maxNew: nat, eos: Option<nat>)
    requires maxNew > 0 && NoCache(m, true, prompt).None?
    ensures FromContext(m, true, prompt, maxNew, eos).None?
  {
    hide NoCache;
  }

  // ---------------------------------------------------------------------------
  // What greedy decoding is
  // ---------------------------------------------------------------------------

  /** The recomputed context predicts `id` next. */
  ghost predicate Picks<F>(m: Model<F>, cached: bool, context: seq<nat>, id: nat) {
    var h := NoCache(m, cached, context);
    h.Some? && m.predict(h.value) == Some(id)
  }

  /**
    At most `steps` ids, each what its context and the ids before it predict and none of them
    the end token; fewer only because the end token was predicted next.
    */
  ghost predicate IsGreedy<F>(m: Model<F>, cached: bool, context: seq<nat>, steps: nat, eos: Option<nat>, ids: seq<nat>) {
    && |ids| <= steps
    && (forall i :: 0 <= i < |ids| ==> Picks(m, cached, context + ids[..i], ids[i]) && Some(ids[i]) != eos)
    && (|ids| < steps ==> eos.Some? && Picks(m, cached, context + ids, eos.value))
  }

  lemma IdsAfterFirst(context: seq<nat>, ids: seq<nat>)
    requires ids != []
    ensures context + ids == context + [ids[0]] + ids[1..] && context + ids[..0] == context
    ensures forall i :: 0 <= i < |ids| - 1 ==> context + ids[..i + 1] == context + [ids[0]] + ids[1..][..i]
  {
    forall i | 0 <= i < |ids| - 1 ensures context + ids[..i + 1] == context + [ids[0]] + ids[1..][..i] {
      assert ids[..i + 1] == [ids[0]] + ids[1..][..i];
    }
  }

  lemma GreedyCons<F>(m: Model<F>, cached: bool, context: seq<nat>, steps: nat, eos: Option<nat>, ids: seq<nat>)
    requires steps > 0 && ids != []
    ensures IsGreedy(m, cached, context, steps, eos, ids) <==>
      && Picks(m, cached, context, ids[0]) && Some(ids[0]) != eos
      && IsGreedy(m, cached, context + [ids[0]], steps - 1, eos, ids[1..])
  {
    hide Picks;
    IdsAfterFirst(context, ids);
    var rest := ids[1..];
    if IsGreedy(m, cached, context, steps, eos, ids) {
      assert Picks(m, cached, context + ids[..0], ids[0]);
      forall i | 0 <= i < |rest| ensures Picks(m, cached, context + [ids[0]] + rest[..i], rest[i]) && Some(rest[i]) != eos {
        assert Picks(m, cached, context + ids[..i + 1], ids[i + 1]);
      }
    }
    if Picks(m, cached, context, ids[0]) && Some(ids[0]) != eos && IsGreedy(m, cached, context + [ids[0]], steps - 1, eos, rest) {
      forall i | 0 <= i < |ids| ensures Picks(m, cached, context + ids[..i], ids[i]) && Some(ids[i]) != eos {
        if i > 0 { assert Picks(m, cached, context + [ids[0]] + rest[..i - 1], rest[i - 1]); }
      }
    }
  }

  /** The recomputing generator's ids are the greedy ones and no others. */
  lemma {:induction false} ContextIsGreedy<F>(m: Model<F>, cached: bool, context: seq<nat>, steps: nat, eos: Option<nat>, ids: seq<nat>)
    ensures FromContext(m, cached, context, steps, eos) == Some(ids) <==> IsGreedy(m, cached, context, steps, eos, ids)
    decreases steps
  {
    hide NoCache;
    if steps > 0 {
      if ids == [] {
        assert context + ids == context;
      } else {
        hide IsGreedy;
        GreedyCons(m, cached, context, steps, eos, ids);
        ContextIsGreedy(m, cached, context + [ids[0]], steps - 1, eos, ids[1..]);
        assert [ids[0]] + ids[1..] == ids;
        if Picks(m, cached, context, ids[0]) && Some(ids[0]) != eos {
          var rest := FromContext(m, cached, context + [ids[0]], steps - 1, eos);
          assert rest.Some? ==> ([ids[0]] + rest.value)[1..] == rest.value;
        }
      }
    }
  }

  /** The state the cached decoder has reached after `context` predicts `id` next. */
  ghost predicate PicksCached<F>(m: Model<F>, cap: nat, context: seq<nat>, id: nat) {
    var run := RunTokens(m, cap, EmptyCache(m.dims.nLayers), context, 0);
    run.Some? && m.predict(run.value.0) == Some(id)
  }

  ghost predicate IsGreedyCached<F>(m: Model<F>, cap: nat, context: seq<nat>, steps: nat, eos: Option<nat>, ids: seq<nat>) {
    && |ids| <= steps
    && (forall i :: 0 <= i < |ids| ==> PicksCached(m, cap, context + ids[..i], ids[i]) && Some(ids[i]) != eos)
    && (|ids| < steps ==> eos.Some? && PicksCached(m, cap, context + ids, eos.value))
  }

  lemma GreedyCachedCons<F>(m: Model<F>, cap: nat, context: seq<nat>, steps: nat, eos: Option<nat>, ids: seq<nat>)
    requires steps > 0 && ids != []
    ensures IsGreedyCached(m, cap, context, steps, eos, ids) <==>
      && PicksCached(m, cap, context, ids[0]) && Some(ids[0]) != eos
      && IsGreedyCached(m, cap, context + [ids[0]], steps - 1, eos, ids[1..])
  {
    hide PicksCached;
    IdsAfterFirst(context, ids);
    var rest := ids[1..];
    if IsGreedyCached(m, cap, context, steps, eos, ids) {
      assert PicksCached(m, cap, context + ids[..0], ids[0]);
      forall i | 0 <= i < |rest| ensures PicksCached(m, cap, context + [ids[0]] + rest[..i], rest[i]) && Some(rest[i]) != eos {
        assert PicksCached(m, cap, context + ids[..i + 1], ids[i + 1]);
      }
    }
    if PicksCached(m, cap, context, ids[0]) && Some(ids[0]) != eos && IsGreedyCached(m, cap, context + [ids[0]], steps - 1, eos, rest) {
      forall i | 0 <= i < |ids| ensures PicksCached(m, cap, context + ids[..i], ids[i]) && Some(ids[i]) != eos {
        if i > 0 { assert PicksCached(m, cap, context + [ids[0]] + rest[..i - 1], rest[i - 1]); }
      }
    }
  }

  /** The cached generator's ids are the greedy ones of its own states and no others. */
  lemma {:induction false} CacheIsGreedy<F>(m: Model<F>, cap: nat, context: seq<nat>, h: seq<F>, cs: Cache<F>, steps: nat, eos: Option<nat>, ids: seq<nat>)
    requires Standing(m, cap, context, h, cs)
    ensures FromCache(m, cap, cs, h, |context|, steps, eos) == Some(ids) <==> IsGreedyCached(m, cap, context, steps, eos, ids)
    decreases steps
  {
    hide TokenForward, RunTokens;
    if steps > 0 {
      if ids == [] {
        assert context + ids == context;
      } else {
        hide IsGreedyCached;
        GreedyCachedCons(m, cap, context, steps, eos, ids);
        if PicksCached(m, cap, context, ids[0]) && Some(ids[0]) != eos {
          assert [ids[0]] + ids[1..] == ids;
          if steps == 1 {
            NothingLeft(m, cap, context + [ids[0]], eos, ids[1..]);
            assert ids[1..] == [] ==> ids == [ids[0]];
          } else {
            StandingNext(m, cap, context, h, cs, ids[0]);
            var step := TokenForward(m, cap, cs, ids[0], |context|);
            if step.Some? {
              CacheIsGreedy(m, cap, context + [ids[0]], step.value.0, step.value.1, steps - 1, eos, ids[1..]);
              var rest := FromCache(m, cap, step.value.1, step.value.0, |context| + 1, steps - 1, eos);
              assert rest.Some? ==> ([ids[0]] + rest.value)[1..] == rest.value;
            } else {
              NothingPicked(m, cap, context + [ids[0]], steps - 1, eos, ids[1..]);
            }
          }
        }
      }
    }
  }

  lemma NothingLeft<F>(m: Model<F>, cap: nat, context: seq<nat>, eos: Option<nat>, ids: seq<nat>)
    ensures IsGreedyCached(m, cap, context, 0, eos, ids) <==> ids == []
  {
  }

  /** A context that does not run predicts nothing. */
  lemma NothingPicked<F>(m: Model<F>, cap: nat, context: seq<nat>, steps: nat, eos: Option<nat>, ids: seq<nat>)
    requires steps > 0 && RunTokens(m, cap, EmptyCache(m.dims.nLayers), context, 0).None?
    ensures !IsGreedyCached(m, cap, context, steps, eos, ids)
  {
    hide RunTokens;
    if ids == [] {
      assert context + ids == context;
    } else {
      assert context + ids[..0] == context;
      assert !PicksCached(m, cap, context + ids[..0], ids[0]);
    }
  }

  /** Whatever the cached generator returns is that list, for its prompt; and it is within the budget. */
  lemma GreedyIds<F>(m: Model<F>, prompt: seq<nat>, maxNew: nat, eos: Option<nat>, cap: nat)
    ensures var plain := GreedyNoCache(m, prompt, maxNew, eos);
      plain.Some? ==> IsGreedy(m, false, prompt, maxNew, eos, plain.value)
    ensures var cached := GreedyWithCache(m, prompt, maxNew, eos, cap);
      cached.Some? ==> IsGreedyCached(m, cap, prompt, maxNew, eos, cached.value)
  {
    hide LayerMajor, TokenForward, RunTokens, NoCache, IsGreedy, IsGreedyCached, FromContext, FromCache;
    var plain, cached := GreedyNoCache(m, prompt, maxNew, eos), GreedyWithCache(m, prompt, maxNew, eos, cap);
    if plain.Some? {
      ContextIsGreedy(m, false, prompt, maxNew, eos, plain.value);
    }
    if cached.Some? {
      PrefillIsTokenRun(m, cap, EmptyCache(m.dims.nLayers), prompt, 0);
      var run := RunTokens(m, cap, EmptyCache(m.dims.nLayers), prompt, 0).value;
      CacheIsGreedy(m, cap, prompt, run.0, run.1, maxNew, eos, cached.value);
    }
  }

  // ---------------------------------------------------------------------------
  // The budget rules out capacity failures
  // ---------------------------------------------------------------------------

  /** With room in every layer, a larger capacity changes nothing. */
  lemma {:induction false} ColumnRoom<F>(m: Model<F>, cap: nat, cap': nat, l: nat, pos: nat, x: seq<F>, cs: Cache<F>)
    requires forall i :: 0 <= i < |cs| ==> |cs[i]| < cap && |cs[i]| < cap'
    ensures Column(m, cap, l, pos, x, cs) == Column(m, cap', l, pos, x, cs)
    decreases |cs|
  {
    hide Finish, Project;
    if cs != [] {
      var step := LayerStep(m, cap, l, pos, x, cs[0]);
      if step.Some? {
        ColumnRoom(m, cap, cap', l + 1, pos, step.value.0, cs[1..]);
      }
    }
  }

  lemma {:induction false} FromCacheRoom<F>(m: Model<F>, cap: nat, cap': nat, cs: Cache<F>, h: seq<F>, pos: nat, steps: nat, eos: Option<nat>)
    requires Fits(cap, cs) && Fits(cap', cs)
    requires forall i :: 0 <= i < |cs| ==> |cs[i]| == pos
    requires pos + GeneratedPositions(steps) <= cap && pos + GeneratedPositions(steps) <= cap'
    ensures FromCache(m, cap, cs, h, pos, steps, eos) == FromCache(m, cap', cs, h, pos, steps, eos)
    decreases steps
  {
    hide Column;
    if steps > 1 && m.predict(h).Some? {
      var next := m.predict(h).value;
      if next < m.dims.vocabSize && m.embed(next).Some? {
        var x := m.embed(next).value;
        ColumnRoom(m, cap, cap', 0, pos, x, cs);
        ColumnExtends(m, cap, 0, pos, x, cs);
        ColumnExtends(m, cap', 0, pos, x, cs);
        var col := Column(m, cap, 0, pos, x, cs);
        if col.Some? {
          FromCacheRoom(m, cap, cap', col.value.1, m.outputNorm(col.value.0), pos + 1, steps - 1, eos);
        }
      }
    }
  }

  lemma {:induction false} RunRoom<F>(m: Model<F>, cap: nat, cap': nat, cs: Cache<F>, tokens: seq<nat>, pos: nat, n: nat)
    requires forall i :: 0 <= i < |cs| ==> |cs[i]| == n
    requires n + |tokens| <= cap && n + |tokens| <= cap'
    ensures RunTokens(m, cap, cs, tokens, pos) == RunTokens(m, cap', cs, tokens, pos)
  {
    hide Column;
    if tokens != [] {
      var t := |tokens| - 1;
      RunRoom(m, cap, cap', cs, tokens[..t], pos, n);
      RunExtends(m, cap, cs, tokens[..t], pos);
      var run := RunTokens(m, cap, cs, tokens[..t], pos);
      if run.Some? && tokens[t] < m.dims.vocabSize && m.embed(tokens[t]).Some? {
        ColumnRoom(m, cap, cap', 0, pos + t, m.embed(tokens[t]).value, run.value.1);
      }
    }
  }

  /** Any two caches with room for the budget give the same outcome. */
  lemma RoomIsRoom<F>(m: Model<F>, prompt: seq<nat>, maxNew: nat, eos: Option<nat>, cap: nat, room: nat)
    requires prompt != []
    requires |prompt| + GeneratedPositions(maxNew) <= cap && |prompt| + GeneratedPositions(maxNew) <= room
    ensures GreedyWithRoom(m, prompt, maxNew, eos, cap) == GreedyWithRoom(m, prompt, maxNew, eos, room)
  {
    hide LayerMajor, TokenForward;
    var cs := EmptyCache(m.dims.nLayers);
    PrefillIsTokenRun(m, cap, cs, prompt, 0);
    PrefillIsTokenRun(m, room, cs, prompt, 0);
    RunRoom(m, cap, room, cs, prompt, 0, 0);
    var run := RunTokens(m, cap, cs, prompt, 0);
    if run.Some? {
      RunExtends(m, cap, cs, prompt, 0);
      RunExtends(m, room, cs, prompt, 0);
      FromCacheRoom(m, cap, room, run.value.1, run.value.0, |prompt|, maxNew, eos);
    }
  }

  /**
    The checks before generation are the only thing capacity decides. Where they pass, the
    outcome, ids or failure, is that of a cache of any size that holds the prompt and the
    generated positions, however far beyond the context or the address space: no accepted
    run meets a full cache. Where they do not, there is none.
    */
  lemma BudgetRulesOutCapacity<F>(m: Model<F>, prompt: seq<nat>, maxNew: nat, eos: Option<nat>, cap: nat, room: nat)
    requires |prompt| + GeneratedPositions(maxNew) <= room
    ensures GreedyWithCache(m, prompt, maxNew, eos, cap) ==
            if PromptOk(m, prompt) && CapacityPasses(m, prompt, maxNew, cap)
            then GreedyWithRoom(m, prompt, maxNew, eos, room) else None
  {
    hide GreedyWithRoom;
    if PromptOk(m, prompt) && CapacityPasses(m, prompt, maxNew, cap) {
      RoomIsRoom(m, prompt, maxNew, eos, cap, room);
    }
  }

  // ---------------------------------------------------------------------------
  // The loops
  // ---------------------------------------------------------------------------

  method CheckPrompt<F(!new)>(m: Model<F>, prompt: seq<nat>) returns (ok: bool)
    ensures ok <==> PromptOk(m, prompt)
  {
    if prompt == [] { return false; }
    var i := 0;
    while i < |prompt|
      invariant 0 <= i <= |prompt|
      invariant forall j :: 0 <= j < i ==> prompt[j] < m.dims.vocabSize
    {
      if prompt[i] >= m.dims.vocabSize { return false; }
      i := i + 1;
    }
    ok := true;
  }

  /** Ids still to come, put after the ids already produced. */
  function Resume(generated: seq<nat>, rest: Option<seq<nat>>): Option<seq<nat>> {
    match rest
    case None => None
    case Some(ids) => Some(generated + ids)
  }

  lemma ResumeEmpty(rest: Option<seq<nat>>)
    ensures Resume([], rest) == rest
  {
    if rest.Some? {
      assert [] + rest.value == rest.value;
    }
  }

  /** Greedy generation without a cache. */
  method GreedyGenerateNoCache<F(!new)>(m: Model<F>, prompt: seq<nat>, maxNew: nat, eos: Option<nat>) returns (r: Option<seq<nat>>)
    requires WellFormed(m) && m.dims.contextLength <= U32_MAX
    ensures r == GreedyNoCache(m, prompt, maxNew, eos)
  {
    var ok := CheckPrompt(m, prompt);
    if !ok { return None; }
    if !WithinBudget(|prompt|, maxNew, None, m.dims.contextLength) { return None; }
    r := ContextLoop(m, prompt, maxNew, eos);
  }

  /** Recompute the context, predict, append. */
  method ContextLoop<F(!new)>(m: Model<F>, prompt: seq<nat>, maxNew: nat, eos: Option<nat>) returns (r: Option<seq<nat>>)
    requires WellFormed(m) && |prompt| + GeneratedPositions(maxNew) <= U32_MAX
    ensures r == FromContext(m, false, prompt, maxNew, eos)
  {
    hide NoCache, WellFormed;
    ghost var goal := FromContext(m, false, prompt, maxNew, eos);
    var context := prompt;
    var generated: seq<nat> := [];
    ResumeEmpty(goal);
    var step: nat := 0;
    while step < maxNew
      invariant 0 <= step <= maxNew && |context| == |prompt| + step
      invariant Resume(generated, FromContext(m, false, context, maxNew - step, eos)) == goal
    {
      var h := NoCacheForward.MultiTokenForward(m, context);
      if h.None? { return None; }
      var next := m.predict(h.value);
      if next.None? { return None; }
      if next == eos {
        assert generated + [] == generated;
        return Some(generated);
      }
      ResumeCons(generated, next.value, FromContext(m, false, context + [next.value], maxNew - step - 1, eos));
      context := context + [next.value];
      generated := generated + [next.value];
      step := step + 1;
    }
    assert generated + [] == generated;
    r := Some(generated);
  }

  /** Greedy generation with a cache made for the occasion. */
  method GreedyGenerateWithCache<F(!new)>(m: Model<F>, prompt: seq<nat>, maxNew: nat, eos: Option<nat>, cap: nat) returns (r: Option<seq<nat>>)
    requires WellFormed(m) && m.dims.contextLength <= U32_MAX
    requires forall x: seq<F> :: |m.codec.quantise(x).codes| == |x|
    ensures r == GreedyWithCache(m, prompt, maxNew, eos, cap)
  {
    hide LayerMajor, TokenForward, Rows;
    var ok := CheckPrompt(m, prompt);
    if !ok { return None; }
    if !WithinBudget(|prompt|, maxNew, Some(cap), m.dims.contextLength) { return None; }
    var made := KVCache.TryNew(m.dims.nLayers, m.dims.kvDim, cap, m.codec, m.zero);
    if made.None? { return None; }
    var cache := made.value;
    var ws := new ForwardWorkspace();
    var pws := new PrefillWorkspace();
    assert cache.Contents() == EmptyCache(m.dims.nLayers);
    var h := PrefillWithCache(m, cache, pws, prompt, 0);
    if h.None? { return None; }
    PrefillIsTokenRun(m, cap, EmptyCache(m.dims.nLayers), prompt, 0);
    RunExtends(m, cap, EmptyCache(m.dims.nLayers), prompt, 0);
    r := DecodeLoop(m, cache, ws, h.value, prompt, maxNew, eos);
  }

  /** Forward one token at the position the cache has reached. */
  method ForwardNext<F(!new)>(m: Model<F>, cache: KVCache<F>, ws: ForwardWorkspace<F>, token: nat, pos: nat) returns (h: Option<seq<F>>)
    requires WellFormed(m) && cache.Valid() && Matches(cache, m) && Synced(cache.Contents(), pos)
    modifies cache, ws
    ensures cache.Valid()
    ensures var run := TokenForward(m, cache.maxSeqLen, old(cache.Contents()), token, pos);
            && (h.Some? <==> run.Some?)
            && (h.Some? ==> h.value == run.value.0 && cache.Contents() == run.value.1 && Synced(cache.Contents(), pos + 1))
    ensures h.None? ==> cache.Contents() == old(cache.Contents())
  {
    hide Column, Rows;
    ghost var cs := cache.Contents();
    PositionOfSynced(cache, pos);
    h := ForwardWithCache(m, cache, ws, token, pos);
    if h.Some? {
      ColumnExtends(m, cache.maxSeqLen, 0, pos, m.embed(token).value, cs);
    }
  }

  /** Predict, emit, forward; the last token is not forwarded. */
  method DecodeLoop<F(!new)>(m: Model<F>, cache: KVCache<F>, ws: ForwardWorkspace<F>, h: seq<F>, prompt: seq<nat>, maxNew: nat, eos: Option<nat>)
      returns (r: Option<seq<nat>>)
    requires WellFormed(m) && cache.Valid() && Matches(cache, m) && Synced(cache.Contents(), |prompt|)
    modifies cache, ws
    ensures r == FromCache(m, cache.maxSeqLen, old(cache.Contents()), h, |prompt|, maxNew, eos)
  {
    hide TokenForward, Rows;
    ghost var cap := cache.maxSeqLen;
    ghost var goal := FromCache(m, cap, cache.Contents(), h, |prompt|, maxNew, eos);
    var lastHidden := h;
    var generated: seq<nat> := [];
    var nextPos: nat := |prompt|;
    ResumeEmpty(goal);
    var step: nat := 0;
    while step < maxNew
      invariant 0 <= step <= maxNew && cache.Valid()
      invariant step < maxNew ==> Synced(cache.Contents(), nextPos)
      invariant step < maxNew ==>
                  Resume(generated, FromCache(m, cap, cache.Contents(), lastHidden, nextPos, maxNew - step, eos)) == goal
      invariant step == maxNew ==> Some(generated) == goal
    {
      var next := m.predict(lastHidden);
      if next.None? { return None; }
      if next == eos {
        assert generated + [] == generated;
        return Some(generated);
      }
      if step + 1 < maxNew {
        var out := ForwardNext(m, cache, ws, next.value, nextPos);
        if out.None? { return None; }
        ResumeCons(generated, next.value, FromCache(m, cap, cache.Contents(), out.value, nextPos + 1, maxNew - step - 1, eos));
        lastHidden := out.value;
        nextPos := nextPos + 1;
      }
      generated := generated + [next.value];
      step := step + 1;
    }
    r := Some(generated);
  }

  lemma ResumeCons(generated: seq<nat>, next: nat, rest: Option<seq<nat>>)
    ensures rest.Some? ==> Resume(generated, Some([next] + rest.value)) == Resume(generated + [next], rest)
  {
    if rest.Some? {
      assert generated + ([next] + rest.value) == generated + [next] + rest.value;
    }
  }

  lemma PositionOfSynced<F(!new)>(cache: KVCache<F>, n: nat)
    requires cache.Valid() && cache.nLayers > 0 && Synced(cache.Contents(), n)
    ensures cache.Position() == n
  {
    assert |cache.Contents()[0]| == n;
  }
}
