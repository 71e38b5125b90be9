/** The multi-token forward that recomputes the whole context, proved against `NoCache`. */
module NoCacheForward {
  import opened Wrappers
  import opened Transformer
  import opened Schedules
  import opened KvCache
  import opened CachedForward

  predicate AllWide<F>(rows: seq<seq<F>>, d: nat) {
    forall p :: 0 <= p < |rows| ==> |rows[p]| == d
  }

  /** Scores of one head against the first `n` key rows. */
  method HeadScoresRows<F>(m: Model<F>, q: seq<F>, qH: seq<F>, ks: seq<seq<F>>, n: nat, h: nat) returns (scores: seq<F>)
    requires m.dims.groupSize > 0 && KvOffset(m.dims, h) + m.dims.headDim <= m.dims.kvDim
    requires |qH| == m.dims.headDim && qH == Span(q, h * m.dims.headDim, m.dims.headDim)
    requires n <= |ks| && AllWide(ks, m.dims.kvDim)
    ensures scores == Scores(m, q, ks[..n], h)
  {
    hide Dot, KvOffset;
    var off := KvOffset(m.dims, h);
    ghost var past := ks[..n];
    scores := [];
    var p := 0;
    while p < n
      invariant 0 <= p <= n && |scores| == p
      invariant forall i :: 0 <= i < p ==> scores[i] == Scores(m, q, past, h)[i]
    {
      var kH := ks[p][off..off + m.dims.headDim];
      assert kH == Span(past[p], off, m.dims.headDim);
      var dot := DotF32(m, qH, kH);
      scores := scores + [m.mul(dot, m.attnScale)];
      p := p + 1;
    }
  }

  method MixHeadRows<F>(m: Model<F>, w: seq<F>, vs: seq<seq<F>>, n: nat, off: nat) returns (outH: seq<F>)
    requires off + m.dims.headDim <= m.dims.kvDim
    requires |w| == n <= |vs| && AllWide(vs, m.dims.kvDim)
    ensures |outH| == m.dims.headDim
    ensures forall j :: 0 <= j < |outH| ==> outH[j] == Mix(m, w, vs[..n], off + j, n)
  {
    outH := seq(m.dims.headDim, _ => m.zero);
    var p := 0;
    while p < n
      invariant 0 <= p <= n && |outH| == m.dims.headDim
      invariant forall j :: 0 <= j < |outH| ==> outH[j] == Mix(m, w, vs[..n], off + j, p)
    {
      var vH := vs[p][off..off + m.dims.headDim];
      outH := AddWeighted(m, outH, w[p], vH);
      p := p + 1;
    }
  }

  method AttendHeadRows<F(!new)>(m: Model<F>, q: seq<F>, ks: seq<seq<F>>, vs: seq<seq<F>>, n: nat, h: nat) returns (outH: seq<F>)
    requires WellFormed(m) && h < m.dims.nHeads && |q| == m.dims.nEmbd
    requires n <= |ks| == |vs| && AllWide(ks, m.dims.kvDim) && AllWide(vs, m.dims.kvDim)
    ensures |outH| == m.dims.headDim
    ensures forall j :: 0 <= j < m.dims.headDim ==> outH[j] == AttendAt(m, q, ks[..n], vs[..n], h, j)
  {
    hide Mix, Scores;
    var hd := m.dims.headDim;
    KvHeadFits(m, h);
    RowBound(h, m.dims.nHeads, hd);
    var scores := HeadScoresRows(m, q, q[h * hd..h * hd + hd], ks, n, h);
    var w := m.softmax(scores);
    outH := MixHeadRows(m, w, vs, n, KvOffset(m.dims, h));
  }

  /** Causal attention of one query over the first `n` rows, kept one vector per token. */
  method AttendRows<F(!new)>(m: Model<F>, q: seq<F>, ks: seq<seq<F>>, vs: seq<seq<F>>, n: nat) returns (attnOut: seq<F>)
    requires WellFormed(m) && |q| == m.dims.nEmbd
    requires n <= |ks| == |vs| && AllWide(ks, m.dims.kvDim) && AllWide(vs, m.dims.kvDim)
    ensures attnOut == Attend(m, q, ks[..n], vs[..n])
  {
    hide AttendAt;
    var hd := m.dims.headDim;
    attnOut := [];
    var h := 0;
    while h < m.dims.nHeads
      invariant 0 <= h <= m.dims.nHeads && |attnOut| == h * hd <= |Attend(m, q, ks[..n], vs[..n])|
      invariant forall i :: 0 <= i < h * hd ==> attnOut[i] == Attend(m, q, ks[..n], vs[..n])[i]
    {
      var outH := AttendHeadRows(m, q, ks, vs, n, h);
      RowBound(h, m.dims.nHeads, hd);
      forall i | h * hd <= i < h * hd + hd ensures (attnOut + outH)[i] == Attend(m, q, ks[..n], vs[..n])[i] {
        HeadOutput(m, q, ks[..n], vs[..n], h, i - h * hd);
      }
      attnOut := attnOut + outH;
      assert (h + 1) * hd == h * hd + hd;
      h := h + 1;
    }
  }

  /** Project and rotate every token of the context. */
  method ProjectContext<F(!new)>(m: Model<F>, l: nat, hidden: seq<seq<F>>)
      returns (ok: bool, qs: seq<seq<F>>, ks: seq<seq<F>>, vs: seq<seq<F>>, ghost ps: seq<Qkv<F>>)
    requires WellFormed(m)
    ensures ok <==> ProjectAll(m, l, 0, hidden).Some?
    ensures ok ==> ProjectAll(m, l, 0, hidden) == Some(ps) && |ps| == |qs| == |ks| == |vs| == |hidden|
    ensures ok ==> ks == MapKeys(m, false, ps) && vs == MapValues(m, false, ps)
    ensures ok ==> AllWide(ks, m.dims.kvDim) && AllWide(vs, m.dims.kvDim) && AllWide(qs, m.dims.nEmbd)
    ensures ok ==> forall t :: 0 <= t < |ps| ==> qs[t] == ps[t].q
  {
    hide ProjectAll, StoreAll;
    qs, ks, vs, ps := [], [], [], [];
    EmptyProjection(m, l, 0, hidden);
    var t := 0;
    while t < |hidden|
      invariant 0 <= t <= |hidden| && |ps| == |qs| == |ks| == |vs| == t
      invariant ProjectAll(m, l, 0, hidden[..t]) == Some(ps)
      invariant AllWide(ks, m.dims.kvDim) && AllWide(vs, m.dims.kvDim) && AllWide(qs, m.dims.nEmbd)
      invariant forall i :: 0 <= i < t ==> ps[i] == Qkv(qs[i], ks[i], vs[i])
    {
      var p := m.qkv(l, m.attnNorm(l, hidden[t]));
      if p.None? {
        ProjectAllFails(m, l, 0, hidden, t);
        return false, qs, ks, vs, ps;
      }
      var q, k := m.ropeQ(p.value.q, t), m.ropeK(p.value.k, t);
      ProjectAllStep(m, l, 0, hidden, t, ps, Qkv(q, k, p.value.v));
      qs, ks, vs := qs + [q], ks + [k], vs + [p.value.v];
      ps := ps + [Qkv(q, k, p.value.v)];
      t := t + 1;
    }
    assert hidden[..t] == hidden;
    ok := true;
  }

  /** The feed-forward half of one token on fresh buffers. */
  method FfnRow<F(!new)>(m: Model<F>, l: nat, x: seq<F>) returns (y: Option<seq<F>>)
    ensures y == FfnHalf(m, l, x)
  {
    hide ZipWith;
    var n := m.ffnNorm(l, x);
    var gate := m.ffnGate(l, n);
    if gate.None? { return None; }
    var up := m.ffnUp(l, n);
    if up.None? { return None; }
    var fused := ZipInto(m.mul, m.activate(gate.value), up.value);
    var downInput := if m.variant.BitNetSubNorm? then m.ffnSubNorm(l, fused) else fused;
    var down := m.ffnDown(l, downInput);
    if down.None? { return None; }
    var z := ZipInto(m.add, x, down.value);
    y := if m.finite(z) then Some(z) else None;
  }

  /** The attention half of one token, with its finiteness check. */
  method AttnRow<F(!new)>(m: Model<F>, l: nat, x: seq<F>, q: seq<F>, ks: seq<seq<F>>, vs: seq<seq<F>>, n: nat) returns (a: Option<seq<F>>)
    requires WellFormed(m) && |q| == m.dims.nEmbd
    requires n <= |ks| == |vs| && AllWide(ks, m.dims.kvDim) && AllWide(vs, m.dims.kvDim)
    ensures var h := AttnHalf(m, l, x, q, ks[..n], vs[..n]);
            a == if h.Some? && m.finite(h.value) then h else None
  {
    hide ZipWith, Attend;
    var attnOut := AttendRows(m, q, ks, vs, n);
    var input := if m.variant.BitNetSubNorm? then m.attnSubNorm(l, attnOut) else attnOut;
    var o := m.attnOutput(l, input);
    if o.None? { return None; }
    var y := ZipInto(m.add, x, o.value);
    a := if m.finite(y) then Some(y) else None;
  }

  function CheckedAt<F>(m: Model<F>, l: nat, xs: seq<seq<F>>, ps: seq<Qkv<F>>, ks: seq<seq<F>>, vs: seq<seq<F>>, t: nat): Option<seq<F>>
    requires t < |xs| == |ps| <= |ks| == |vs|
  {
    FinishChecked(m, l, xs[t], ps[t].q, ks[..t + 1], vs[..t + 1])
  }

  lemma {:induction false} CheckedFails<F>(m: Model<F>, l: nat, xs: seq<seq<F>>, ps: seq<Qkv<F>>, ks: seq<seq<F>>, vs: seq<seq<F>>, t: nat)
    requires t < |xs| == |ps| <= |ks| == |vs|
    requires CheckedAt(m, l, xs, ps, ks, vs, t).None?
    ensures FinishCheckedAll(m, l, xs, ps, ks, vs).None?
  {
    hide FinishChecked;
    var n := |xs| - 1;
    if t < n {
      CheckedFails(m, l, xs[..n], ps[..n], ks, vs, t);
    }
  }

  lemma {:induction false} CheckedSucceeds<F>(m: Model<F>, l: nat, xs: seq<seq<F>>, ps: seq<Qkv<F>>, ks: seq<seq<F>>, vs: seq<seq<F>>, ys: seq<seq<F>>)
    requires |xs| == |ps| == |ys| <= |ks| == |vs|
    requires forall t :: 0 <= t < |xs| ==> CheckedAt(m, l, xs, ps, ks, vs, t) == Some(ys[t])
    ensures FinishCheckedAll(m, l, xs, ps, ks, vs) == Some(ys)
  {
    hide FinishChecked;
    if xs != [] {
      var n := |xs| - 1;
      forall t | 0 <= t < n
        ensures CheckedAt(m, l, xs[..n], ps[..n], ks, vs, t) == Some(ys[..n][t])
      {
        assert CheckedAt(m, l, xs, ps, ks, vs, t) == Some(ys[t]);
      }
      CheckedSucceeds(m, l, xs[..n], ps[..n], ks, vs, ys[..n]);
      assert CheckedAt(m, l, xs, ps, ks, vs, n) == Some(ys[n]);
      assert ys[..n] + [ys[n]] == ys;
    }
  }

  /** One layer over the whole context: attention of every token, then feed-forward of every token. */
  method ContextLayerForward<F(!new)>(m: Model<F>, l: nat, hidden: seq<seq<F>>) returns (r: Option<seq<seq<F>>>)
    requires WellFormed(m)
    ensures r == ContextLayer(m, false, l, hidden)
  {
    hide AttnHalf, FfnHalf, ProjectAll, FinishCheckedAll;
    var ok, qs, ks, vs;
    ghost var ps: seq<Qkv<F>>;
    ok, qs, ks, vs, ps := ProjectContext(m, l, hidden);
    if !ok { return None; }
    var mid: seq<seq<F>> := [];
    var t := 0;
    while t < |hidden|
      invariant 0 <= t <= |hidden| && |mid| == t
      invariant forall i :: 0 <= i < t ==>
                  AttnHalf(m, l, hidden[i], ps[i].q, ks[..i + 1], vs[..i + 1]) == Some(mid[i]) && m.finite(mid[i])
    {
      var a := AttnRow(m, l, hidden[t], qs[t], ks, vs, t + 1);
      if a.None? {
        CheckedFails(m, l, hidden, ps, ks, vs, t);
        return None;
      }
      mid := mid + [a.value];
      t := t + 1;
    }
    var ys: seq<seq<F>> := [];
    t := 0;
    while t < |hidden|
      invariant 0 <= t <= |hidden| && |ys| == t
      invariant forall i :: 0 <= i < t ==> CheckedAt(m, l, hidden, ps, ks, vs, i) == Some(ys[i])
    {
      var y := FfnRow(m, l, mid[t]);
      if y.None? {
        CheckedFails(m, l, hidden, ps, ks, vs, t);
        return None;
      }
      ys := ys + [y.value];
      t := t + 1;
    }
    CheckedSucceeds(m, l, hidden, ps, ks, vs, ys);
    r := Some(ys);
  }

  /** The forward over the whole context, from scratch: last token's final hidden state. */
  method MultiTokenForward<F(!new)>(m: Model<F>, tokens: seq<nat>) returns (output: Option<seq<F>>)
    requires WellFormed(m)
    ensures output == if |tokens| > U32_MAX then None else NoCache(m, false, tokens)
  {
    hide ContextLayer, EmbedAll;
    if tokens == [] { return None; }
    if |tokens| > U32_MAX { return None; }
    var rows := EmbedChunk(m, tokens);
    if rows.None? { return None; }
    var hidden := rows.value;
    var l := 0;
    while l < m.dims.nLayers
      invariant 0 <= l <= m.dims.nLayers && |hidden| == |tokens|
      invariant ContextLayers(m, false, l, hidden) == ContextLayers(m, false, 0, rows.value)
    {
      var next := ContextLayerForward(m, l, hidden);
      if next.None? { return None; }
      hidden := next.value;
      l := l + 1;
    }
    output := Some(m.outputNorm(hidden[|tokens| - 1]));
  }
}
