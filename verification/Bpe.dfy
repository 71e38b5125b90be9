/**
  Byte-pair merging of one word: the loop, the merge it makes at each step, and what the
  finished word is.
  */
module Bpe {
  import opened Wrappers

  const U32_MAX: nat := 0xFFFF_FFFF

  type Ranks = map<(string, string), nat>

  // ---------------------------------------------------------------------------
  // One merge
  // ---------------------------------------------------------------------------

  /** The rank of the pair at `i`; pairs without one never merge, nor do pairs of the largest rank. */
  function RankAt(ranks: Ranks, symbols: seq<string>, i: nat): (r: nat)
    requires i + 1 < |symbols|
  {
    var key := (symbols[i], symbols[i + 1]);
    if key in ranks && ranks[key] < U32_MAX then ranks[key] else U32_MAX
  }

  predicate Mergeable(ranks: Ranks, symbols: seq<string>, i: nat)
    requires i + 1 < |symbols|
  {
    RankAt(ranks, symbols, i) < U32_MAX
  }

  /** `i` is the leftmost of the pairs of lowest rank. */
  ghost predicate Best(ranks: Ranks, symbols: seq<string>, i: nat) {
    && i + 1 < |symbols|
    && Mergeable(ranks, symbols, i)
    && (forall j: nat :: j + 1 < |symbols| ==> RankAt(ranks, symbols, i) <= RankAt(ranks, symbols, j))
    && (forall j: nat :: j < i ==> RankAt(ranks, symbols, i) < RankAt(ranks, symbols, j))
  }

  ghost predicate Finished(ranks: Ranks, symbols: seq<string>) {
    forall j: nat :: j + 1 < |symbols| ==> !Mergeable(ranks, symbols, j)
  }

  function MergeAt(symbols: seq<string>, i: nat): (r: seq<string>)
    requires i + 1 < |symbols|
    ensures |r| == |symbols| - 1
  {
    symbols[..i] + [symbols[i] + symbols[i + 1]] + symbols[i + 2..]
  }

  method FindBest(ranks: Ranks, symbols: seq<string>) returns (best: Option<nat>)
    requires |symbols| >= 2
    ensures best.Some? ==> Best(ranks, symbols, best.value)
    ensures best.None? ==> Finished(ranks, symbols)
  {
    var bestRank := U32_MAX;
    best := None;
    var i := 0;
    while i < |symbols| - 1
      invariant 0 <= i <= |symbols| - 1
      invariant best.None? ==> bestRank == U32_MAX
      invariant best.Some? ==> best.value < i && bestRank == RankAt(ranks, symbols, best.value) < U32_MAX
      invariant forall j: nat :: j < i ==> bestRank <= RankAt(ranks, symbols, j)
      invariant best.Some? ==> forall j: nat :: j < best.value ==> bestRank < RankAt(ranks, symbols, j)
    {
      var key := (symbols[i], symbols[i + 1]);
      if key in ranks {
        if ranks[key] < bestRank {
          bestRank := ranks[key];
          best := Some(i);
        }
      }
      i := i + 1;
    }
  }

  lemma BestIsUnique(ranks: Ranks, symbols: seq<string>, i: nat, j: nat)
    requires Best(ranks, symbols, i) && Best(ranks, symbols, j)
    ensures i == j
  {
  }

  // ---------------------------------------------------------------------------
  // The whole word
  // ---------------------------------------------------------------------------

  /** Every merge the definition of the encoding allows, in order: the words passed through. */
  ghost predicate IsRun(ranks: Ranks, run: seq<seq<string>>) {
    && run != []
    && Finished(ranks, run[|run| - 1])
    && forall k: nat :: k + 1 < |run| ==> IsStep(ranks, run[k], run[k + 1])
  }

  ghost predicate IsStep(ranks: Ranks, from: seq<string>, to: seq<string>) {
    exists i: nat :: Best(ranks, from, i) && to == MergeAt(from, i)
  }

  /** `r` is where merging the leftmost lowest-ranked pair for as long as there is one leads. */
  ghost predicate Encodes(ranks: Ranks, symbols: seq<string>, r: seq<string>) {
    exists run :: IsRun(ranks, run) && run[0] == symbols && run[|run| - 1] == r
  }

  method EncodeWord(ranks: Ranks, word: seq<string>) returns (symbols: seq<string>)
    ensures Encodes(ranks, word, symbols)
  {
    symbols := word;
    ghost var run := [word];
    if |symbols| < 2 {
      assert IsRun(ranks, run);
      return;
    }
    while true
      invariant |symbols| >= 2
      invariant run != [] && run[0] == word && run[|run| - 1] == symbols
      invariant forall k: nat :: k + 1 < |run| ==> IsStep(ranks, run[k], run[k + 1])
      decreases |symbols|
    {
      var best := FindBest(ranks, symbols);
      if best.None? {
        assert IsRun(ranks, run);
        return;
      }
      var idx := best.value;
      var merged := symbols[idx] + symbols[idx + 1];
      ghost var before := symbols;
      symbols := symbols[idx := merged];
      symbols := symbols[..idx + 1] + symbols[idx + 2..];
      assert symbols == MergeAt(before, idx);
      assert IsStep(ranks, before, symbols);
      run := run + [symbols];
      if |symbols| < 2 {
        assert IsRun(ranks, run);
        return;
      }
    }
  }

  /** The first merge of a run, and the run that is left. */
  lemma RunTail(ranks: Ranks, run: seq<seq<string>>)
    requires IsRun(ranks, run) && |run| > 1
    ensures IsStep(ranks, run[0], run[1]) && IsRun(ranks, run[1..])
  {
    var rest := run[1..];
    forall k: nat | k + 1 < |rest| ensures IsStep(ranks, rest[k], rest[k + 1]) {
      var next := k + 1;
      assert IsStep(ranks, run[next], run[next + 1]);
    }
    var first := 0;
    assert IsStep(ranks, run[first], run[first + 1]);
  }

  lemma FinishedStaysPut(ranks: Ranks, run: seq<seq<string>>)
    requires IsRun(ranks, run)
    ensures |run| == 1 <==> Finished(ranks, run[0])
  {
    if |run| > 1 {
      RunTail(ranks, run);
      var i: nat :| Best(ranks, run[0], i) && run[1] == MergeAt(run[0], i);
      assert Mergeable(ranks, run[0], i);
    }
  }

  lemma {:induction false} RunIsUnique(ranks: Ranks, run: seq<seq<string>>, other: seq<seq<string>>)
    requires IsRun(ranks, run) && IsRun(ranks, other) && run[0] == other[0]
    ensures run == other
    decreases |run|
  {
    FinishedStaysPut(ranks, run);
    FinishedStaysPut(ranks, other);
    if |run| > 1 {
      RunTail(ranks, run);
      RunTail(ranks, other);
      var i: nat :| Best(ranks, run[0], i) && run[1] == MergeAt(run[0], i);
      var j: nat :| Best(ranks, other[0], j) && other[1] == MergeAt(other[0], j);
      BestIsUnique(ranks, run[0], i, j);
      RunIsUnique(ranks, run[1..], other[1..]);
      assert run == [run[0]] + run[1..] && other == [other[0]] + other[1..];
    }
  }

  /** The encoding is a function of the word. */
  lemma EncodingIsUnique(ranks: Ranks, symbols: seq<string>, r: seq<string>, s: seq<string>)
    requires Encodes(ranks, symbols, r) && Encodes(ranks, symbols, s)
    ensures r == s
  {
    var run :| IsRun(ranks, run) && run[0] == symbols && run[|run| - 1] == r;
    var other :| IsRun(ranks, other) && other[0] == symbols && other[|other| - 1] == s;
    RunIsUnique(ranks, run, other);
  }

  /** One merge, then the encoding of what it left. */
  lemma EncodesStep(ranks: Ranks, symbols: seq<string>, i: nat, r: seq<string>)
    requires Best(ranks, symbols, i) && Encodes(ranks, MergeAt(symbols, i), r)
    ensures Encodes(ranks, symbols, r)
  {
    var next := MergeAt(symbols, i);
    var run :| IsRun(ranks, run) && run[0] == next && run[|run| - 1] == r;
    var longer := [symbols] + run;
    assert IsStep(ranks, symbols, next);
    forall k: nat | k + 1 < |longer| ensures IsStep(ranks, longer[k], longer[k + 1]) {
      if k > 0 { assert longer[k] == run[k - 1] && longer[k + 1] == run[(k - 1) + 1]; }
    }
    assert IsRun(ranks, longer);
  }

  lemma EncodesFinished(ranks: Ranks, symbols: seq<string>)
    requires Finished(ranks, symbols)
    ensures Encodes(ranks, symbols, symbols)
  {
    assert IsRun(ranks, [symbols]);
  }

  /** A finished word encodes to itself, so encoding twice is encoding once. */
  lemma Idempotent(ranks: Ranks, symbols: seq<string>, r: seq<string>)
    requires Encodes(ranks, symbols, r)
    ensures Finished(ranks, r)
    ensures forall s :: Encodes(ranks, r, s) <==> s == r
  {
    EncodesFinished(ranks, r);
    forall s | Encodes(ranks, r, s) ensures s == r {
      EncodingIsUnique(ranks, r, r, s);
    }
  }

  // ---------------------------------------------------------------------------
  // The text is kept
  // ---------------------------------------------------------------------------

  function Text(symbols: seq<string>): string {
    if symbols == [] then "" else Text(symbols[..|symbols| - 1]) + symbols[|symbols| - 1]
  }

  lemma {:induction false} TextConcat(a: seq<string>, b: seq<string>)
    ensures Text(a + b) == Text(a) + Text(b)
  {
    if b == [] {
      assert a + b == a;
    } else {
      var init, last := b[..|b| - 1], b[|b| - 1];
      TextConcat(a, init);
      assert (a + b)[..|a + b| - 1] == a + init;
      Associate(Text(a), Text(init), last);
    }
  }

  lemma Associate(x: string, y: string, z: string)
    ensures x + y + z == x + (y + z)
  {
  }

  lemma MiddleText(before: seq<string>, middle: seq<string>, after: seq<string>)
    ensures Text(before + middle + after) == Text(before) + Text(middle) + Text(after)
  {
    hide Text;
    TextConcat(before + middle, after);
    TextConcat(before, middle);
  }

  lemma PairText(x: string, y: string)
    ensures Text([x, y]) == x + y && Text([x + y]) == x + y
  {
    SingleText(x);
    SingleText(y);
    SingleText(x + y);
    TextConcat([x], [y]);
    assert [x] + [y] == [x, y];
  }

  lemma SplitAround(symbols: seq<string>, i: nat)
    requires i + 1 < |symbols|
    ensures symbols == symbols[..i] + [symbols[i], symbols[i + 1]] + symbols[i + 2..]
  {
  }

  lemma MergeKeepsText(symbols: seq<string>, i: nat)
    requires i + 1 < |symbols|
    ensures Text(MergeAt(symbols, i)) == Text(symbols)
  {
    hide Text;
    var before, after := symbols[..i], symbols[i + 2..];
    var pair, joined := [symbols[i], symbols[i + 1]], [symbols[i] + symbols[i + 1]];
    PairText(symbols[i], symbols[i + 1]);
    calc {
      Text(MergeAt(symbols, i));
      Text(before + joined + after);
    == { MiddleText(before, joined, after); }
      Text(before) + Text(joined) + Text(after);
      Text(before) + Text(pair) + Text(after);
    == { MiddleText(before, pair, after); }
      Text(before + pair + after);
    == { SplitAround(symbols, i); }
      Text(symbols);
    }
  }

  lemma SingleText(x: string)
    ensures Text([x]) == x
  {
    assert [x][..0] == [];
  }

  lemma {:induction false} RunKeepsText(ranks: Ranks, run: seq<seq<string>>)
    requires IsRun(ranks, run)
    ensures Text(run[0]) == Text(run[|run| - 1]) && |run[|run| - 1]| <= |run[0]|
    decreases |run|
  {
    if |run| > 1 {
      RunTail(ranks, run);
      var i: nat :| Best(ranks, run[0], i) && run[1] == MergeAt(run[0], i);
      MergeKeepsText(run[0], i);
      RunKeepsText(ranks, run[1..]);
    }
  }

  lemma EncodingKeepsText(ranks: Ranks, symbols: seq<string>, r: seq<string>)
    requires Encodes(ranks, symbols, r)
    ensures Text(r) == Text(symbols) && |r| <= |symbols|
  {
    var run :| IsRun(ranks, run) && run[0] == symbols && run[|run| - 1] == r;
    RunKeepsText(ranks, run);
  }

  // ---------------------------------------------------------------------------
  // Only the order of the ranks matters
  // ---------------------------------------------------------------------------

  ghost predicate SameOrder(ranks: Ranks, other: Ranks) {
    && ranks.Keys == other.Keys
    && (forall k :: k in ranks ==> (ranks[k] < U32_MAX <==> other[k] < U32_MAX))
    && (forall k, l :: k in ranks && l in ranks ==> (ranks[k] < ranks[l] <==> other[k] < other[l]))
  }

  lemma SameOrderSameBest(ranks: Ranks, other: Ranks, symbols: seq<string>, i: nat)
    requires SameOrder(ranks, other) && Best(ranks, symbols, i)
    ensures Best(other, symbols, i)
  {
    forall j: nat | j + 1 < |symbols|
      ensures RankAt(ranks, symbols, i) < RankAt(ranks, symbols, j)
          ==> RankAt(other, symbols, i) < RankAt(other, symbols, j)
      ensures RankAt(ranks, symbols, i) <= RankAt(ranks, symbols, j)
          ==> RankAt(other, symbols, i) <= RankAt(other, symbols, j)
    {
    }
  }

  lemma SameOrderSameFinish(ranks: Ranks, other: Ranks, symbols: seq<string>)
    requires SameOrder(ranks, other) && Finished(ranks, symbols)
    ensures Finished(other, symbols)
  {
    forall j: nat | j + 1 < |symbols| ensures !Mergeable(other, symbols, j) {
      assert !Mergeable(ranks, symbols, j);
    }
  }

  lemma {:induction false} RunUnderSameOrder(ranks: Ranks, other: Ranks, run: seq<seq<string>>)
    requires SameOrder(ranks, other) && IsRun(ranks, run)
    ensures IsRun(other, run)
  {
    var last := run[|run| - 1];
    assert Finished(ranks, last);
    assert Finished(other, last) by { SameOrderSameFinish(ranks, other, last); }
    forall k: nat | k + 1 < |run| ensures IsStep(other, run[k], run[k + 1]) {
      assert IsStep(ranks, run[k], run[k + 1]);
      var i: nat :| Best(ranks, run[k], i) && run[k + 1] == MergeAt(run[k], i);
      SameOrderSameBest(ranks, other, run[k], i);
    }
  }

  lemma OnlyRankOrderMatters(ranks: Ranks, other: Ranks, symbols: seq<string>, r: seq<string>)
    requires SameOrder(ranks, other) && Encodes(ranks, symbols, r)
    ensures Encodes(other, symbols, r)
  {
    var run :| IsRun(ranks, run) && run[0] == symbols && run[|run| - 1] == r;
    RunUnderSameOrder(ranks, other, run);
  }

  // ---------------------------------------------------------------------------
  // A word cut where nothing can merge across
  // ---------------------------------------------------------------------------

  /** No merge joins text ending at the end of `a` to text starting at the start of `b`. */
  ghost predicate Cut(ranks: Ranks, a: seq<string>, b: seq<string>) {
    forall i: nat, j: nat :: i < |a| && 0 < j <= |b| ==> !Joins(ranks, Text(a[i..]), Text(b[..j]))
  }

  predicate Joins(ranks: Ranks, x: string, y: string) {
    (x, y) in ranks && ranks[(x, y)] < U32_MAX
  }

  lemma CutAfterLeftMerge(ranks: Ranks, a: seq<string>, b: seq<string>, i: nat)
    requires Cut(ranks, a, b) && i + 1 < |a|
    ensures Cut(ranks, MergeAt(a, i), b)
  {
    var a' := MergeAt(a, i);
    forall k: nat, j: nat | k < |a'| && 0 < j <= |b| ensures !Joins(ranks, Text(a'[k..]), Text(b[..j])) {
      if k <= i {
        assert a'[k..] == MergeAt(a[k..], i - k);
        MergeKeepsText(a[k..], i - k);
        assert !Joins(ranks, Text(a[k..]), Text(b[..j]));
      } else {
        assert a'[k..] == a[k + 1..];
        assert !Joins(ranks, Text(a[k + 1..]), Text(b[..j]));
      }
    }
  }

  lemma CutAfterRightMerge(ranks: Ranks, a: seq<string>, b: seq<string>, i: nat)
    requires Cut(ranks, a, b) && i + 1 < |b|
    ensures Cut(ranks, a, MergeAt(b, i))
  {
    var b' := MergeAt(b, i);
    forall k: nat, j: nat | k < |a| && 0 < j <= |b'| ensures !Joins(ranks, Text(a[k..]), Text(b'[..j])) {
      if j <= i {
        assert b'[..j] == b[..j];
        assert !Joins(ranks, Text(a[k..]), Text(b[..j]));
      } else {
        assert b'[..j] == MergeAt(b[..j + 1], i);
        MergeKeepsText(b[..j + 1], i);
        assert !Joins(ranks, Text(a[k..]), Text(b[..j + 1]));
      }
    }
  }

  /** The pair across the cut has no rank. */
  lemma NothingAcross(ranks: Ranks, a: seq<string>, b: seq<string>)
    requires Cut(ranks, a, b) && a != [] && b != []
    ensures RankAt(ranks, a + b, |a| - 1) == U32_MAX
  {
    assert a[|a| - 1..] == [a[|a| - 1]] && b[..1] == [b[0]];
    SingleText(a[|a| - 1]);
    SingleText(b[0]);
    assert !Joins(ranks, Text(a[|a| - 1..]), Text(b[..1]));
  }

  /** The ranks of a cut word are those of its parts, side by side. */
  lemma RanksOfParts(ranks: Ranks, a: seq<string>, b: seq<string>)
    requires Cut(ranks, a, b)
    ensures forall j: nat :: j + 1 < |a + b| ==>
      RankAt(ranks, a + b, j) == (if j + 1 < |a| then RankAt(ranks, a, j)
                                  else if j < |a| then U32_MAX
                                  else RankAt(ranks, b, j - |a|))
  {
    if a != [] && b != [] { NothingAcross(ranks, a, b); }
  }

  lemma {:induction false} BestOfParts(ranks: Ranks, a: seq<string>, b: seq<string>, i: nat)
    requires Cut(ranks, a, b) && Best(ranks, a + b, i)
    ensures i + 1 < |a| || (|a| <= i && i - |a| + 1 < |b|)
    ensures i + 1 < |a| ==> Best(ranks, a, i) && MergeAt(a + b, i) == MergeAt(a, i) + b
    ensures i >= |a| ==> Best(ranks, b, i - |a|) && MergeAt(a + b, i) == a + MergeAt(b, i - |a|)
  {
    RanksOfParts(ranks, a, b);
    hide RankAt;
    if i >= |a| {
      forall j: nat | j + 1 < |b|
        ensures RankAt(ranks, b, j) == RankAt(ranks, a + b, j + |a|)
      {
      }
      assert MergeAt(a + b, i) == a + MergeAt(b, i - |a|);
    } else {
      assert i + 1 < |a| ==> MergeAt(a + b, i) == MergeAt(a, i) + b;
    }
  }

  lemma MergedAt(ranks: Ranks, from: seq<string>, to: seq<string>) returns (i: nat)
    requires IsStep(ranks, from, to)
    ensures i + 1 < |from| && Best(ranks, from, i) && to == MergeAt(from, i)
  {
    i :| Best(ranks, from, i) && to == MergeAt(from, i);
  }

  /** Where no merge crosses, encoding a word is encoding its two parts. */
  lemma {:induction false} CutEncodes(ranks: Ranks, a: seq<string>, b: seq<string>, run: seq<seq<string>>)
    returns (ra: seq<string>, rb: seq<string>)
    requires Cut(ranks, a, b) && IsRun(ranks, run) && run[0] == a + b
    ensures Encodes(ranks, a, ra) && Encodes(ranks, b, rb) && run[|run| - 1] == ra + rb
    decreases |run|
  {
    hide Cut, Best, MergeAt, Finished, IsStep;
    if |run| == 1 {
      FinishedParts(ranks, a, b);
      EncodesFinished(ranks, a);
      EncodesFinished(ranks, b);
      ra, rb := a, b;
    } else {
      RunTail(ranks, run);
      var i := MergedAt(ranks, run[0], run[1]);
      BestOfParts(ranks, a, b, i);
      if i + 1 < |a| {
        CutAfterLeftMerge(ranks, a, b, i);
        ra, rb := CutEncodes(ranks, MergeAt(a, i), b, run[1..]);
        EncodesStep(ranks, a, i, ra);
      } else {
        CutAfterRightMerge(ranks, a, b, i - |a|);
        ra, rb := CutEncodes(ranks, a, MergeAt(b, i - |a|), run[1..]);
        EncodesStep(ranks, b, i - |a|, rb);
      }
    }
  }

  lemma FinishedParts(ranks: Ranks, a: seq<string>, b: seq<string>)
    requires Cut(ranks, a, b) && Finished(ranks, a + b)
    ensures Finished(ranks, a) && Finished(ranks, b)
  {
    RanksOfParts(ranks, a, b);
    forall j: nat | j + 1 < |a| ensures !Mergeable(ranks, a, j) {
      assert !Mergeable(ranks, a + b, j);
    }
    forall j: nat | j + 1 < |b| ensures !Mergeable(ranks, b, j) {
      assert !Mergeable(ranks, a + b, j + |a|);
    }
  }

  lemma CutWordEncodesInParts(ranks: Ranks, a: seq<string>, b: seq<string>,
                              ra: seq<string>, rb: seq<string>, r: seq<string>)
    requires Cut(ranks, a, b)
    requires Encodes(ranks, a, ra) && Encodes(ranks, b, rb) && Encodes(ranks, a + b, r)
    ensures r == ra + rb
  {
    var run :| IsRun(ranks, run) && run[0] == a + b && run[|run| - 1] == r;
    var sa, sb := CutEncodes(ranks, a, b, run);
    EncodingIsUnique(ranks, a, ra, sa);
    EncodingIsUnique(ranks, b, rb, sb);
  }

  // ---------------------------------------------------------------------------
  // Three symbols
  // ---------------------------------------------------------------------------

  /** The left pair is merged first: it can be, and no lower-ranked pair is on the right. */
  predicate LeftFirst(ranks: Ranks, x: string, y: string, z: string) {
    Joins(ranks, x, y) && (Joins(ranks, y, z) ==> ranks[(x, y)] <= ranks[(y, z)])
  }

  lemma TwoSymbols(ranks: Ranks, x: string, y: string)
    ensures Encodes(ranks, [x, y], if Joins(ranks, x, y) then [x + y] else [x, y])
  {
    if Joins(ranks, x, y) {
      assert Best(ranks, [x, y], 0);
      assert MergeAt([x, y], 0) == [x + y];
      EncodesFinished(ranks, [x + y]);
      EncodesStep(ranks, [x, y], 0, [x + y]);
    } else {
      assert !Mergeable(ranks, [x, y], 0);
      EncodesFinished(ranks, [x, y]);
    }
  }

  /**
    What three symbols come to, by the entries of the rank table: the lower-ranked pair is
    merged, of equal ones the left, and what it makes is merged with the third if it can be.
    */
  lemma ThreeSymbols(ranks: Ranks, x: string, y: string, z: string, r: seq<string>)
    requires Encodes(ranks, [x, y, z], r)
    ensures r == if LeftFirst(ranks, x, y, z) then (if Joins(ranks, x + y, z) then [x + y + z] else [x + y, z])
                 else if Joins(ranks, y, z) then (if Joins(ranks, x, y + z) then [x + (y + z)] else [x, y + z])
                 else [x, y, z]
  {
    var word := [x, y, z];
    assert RankAt(ranks, word, 0) == (if Joins(ranks, x, y) then ranks[(x, y)] else U32_MAX);
    assert RankAt(ranks, word, 1) == (if Joins(ranks, y, z) then ranks[(y, z)] else U32_MAX);
    if LeftFirst(ranks, x, y, z) {
      assert Best(ranks, word, 0);
      assert MergeAt(word, 0) == [x + y, z];
      TwoSymbols(ranks, x + y, z);
      var done := if Joins(ranks, x + y, z) then [x + y + z] else [x + y, z];
      EncodesStep(ranks, word, 0, done);
      EncodingIsUnique(ranks, word, r, done);
    } else if Joins(ranks, y, z) {
      assert Best(ranks, word, 1);
      assert MergeAt(word, 1) == [x, y + z];
      TwoSymbols(ranks, x, y + z);
      var done := if Joins(ranks, x, y + z) then [x + (y + z)] else [x, y + z];
      EncodesStep(ranks, word, 1, done);
      EncodingIsUnique(ranks, word, r, done);
    } else {
      forall j: nat | j + 1 < |word| ensures !Mergeable(ranks, word, j) {
        assert j == 0 || j == 1;
      }
      EncodesFinished(ranks, word);
      EncodingIsUnique(ranks, word, r, word);
    }
  }
}
