/**
  The text a chat turn streams out: token bytes decoded as UTF-8, emoji removed,
  delivery held back behind a look-ahead window so that a fabricated turn marker is cut
  off before any of it is shown.
  */
module ChatStream {
  import opened Wrappers
  import opened Utf8

  const STOP_SEQUENCES: seq<string> := [
    "BITNETAssistant:", "User:", "Human:", "AI Assistant:", "AI:",
    "Assistant:", "Question:", "Human (", "User (", "AI ("
  ]

  const LOOKAHEAD_BYTES: nat := 24

  const REPLACEMENT: string := "\U{FFFD}"

  predicate IsEmoji(c: char) {
    var n := c as int;
    || 0x1F300 <= n <= 0x1F9FF || 0x1FA00 <= n <= 0x1FAFF || 0x1F1E6 <= n <= 0x1F1FF
    || 0x2600 <= n <= 0x27BF || n == 0x200D || 0xFE00 <= n <= 0xFE0F
  }

  function StripEmoji(text: string): string {
    if text == [] then [] else
    (if IsEmoji(text[0]) then [] else [text[0]]) + StripEmoji(text[1..])
  }

  /** Unicode White_Space, which trimming removes. */
  predicate IsWhitespace(c: char) {
    var n := c as int;
    || 0x9 <= n <= 0xD || n == 0x20 || n == 0x85 || n == 0xA0 || n == 0x1680
    || 0x2000 <= n <= 0x200A || n == 0x2028 || n == 0x2029 || n == 0x202F || n == 0x205F || n == 0x3000
  }

  function TrimEnd(text: string): (r: string)
    ensures r <= text
    ensures forall i :: |r| <= i < |text| ==> IsWhitespace(text[i])
  {
    if text != [] && IsWhitespace(text[|text| - 1]) then TrimEnd(text[..|text| - 1]) else text
  }

  // ---------------------------------------------------------------------------
  // Markers
  // ---------------------------------------------------------------------------

  predicate OccursAt(text: string, stop: string, idx: nat) {
    idx + |stop| <= |text| && text[idx..idx + |stop|] == stop
  }

  predicate MarkerAt(text: string, idx: nat) {
    exists k :: 0 <= k < |STOP_SEQUENCES| && OccursAt(text, STOP_SEQUENCES[k], idx)
  }

  ghost predicate HasMarker(text: string) {
    exists idx: nat :: MarkerAt(text, idx)
  }

  /** The first position at or after `from` where some marker starts. */
  function EarliestFrom(text: string, from: nat): (r: Option<nat>)
    ensures r.Some? ==> from <= r.value <= |text| && MarkerAt(text, r.value)
    ensures r.Some? ==> forall i: nat :: from <= i < r.value ==> !MarkerAt(text, i)
    ensures r.None? ==> forall i: nat :: from <= i ==> !MarkerAt(text, i)
    decreases |text| + 1 - from
  {
    if from > |text| then None
    else if MarkerAt(text, from) then Some(from)
    else EarliestFrom(text, from + 1)
  }

  function FindStop(text: string): (r: Option<nat>)
    ensures r.Some? <==> HasMarker(text)
  {
    EarliestFrom(text, 0)
  }

  /** Leftmost occurrence of one marker. */
  method FindOne(text: string, stop: string) returns (r: Option<nat>)
    ensures r.Some? ==> OccursAt(text, stop, r.value) && forall i: nat :: i < r.value ==> !OccursAt(text, stop, i)
    ensures r.None? ==> forall i: nat :: !OccursAt(text, stop, i)
  {
    var i: nat := 0;
    while i + |stop| <= |text|
      invariant forall j: nat :: j < i ==> !OccursAt(text, stop, j)
    {
      if text[i..i + |stop|] == stop { return Some(i); }
      i := i + 1;
    }
    r := None;
  }

  /** The scan over all markers, keeping the smallest position. */
  method FindChatStopSequence(text: string) returns (earliest: Option<nat>)
    ensures earliest == FindStop(text)
  {
    earliest := None;
    var k := 0;
    while k < |STOP_SEQUENCES|
      invariant 0 <= k <= |STOP_SEQUENCES|
      invariant earliest.None? ==> forall j, i: nat :: 0 <= j < k ==> !OccursAt(text, STOP_SEQUENCES[j], i)
      invariant earliest.Some? ==> exists j :: 0 <= j < k && OccursAt(text, STOP_SEQUENCES[j], earliest.value)
      invariant earliest.Some? ==> forall j, i: nat :: 0 <= j < k && i < earliest.value ==> !OccursAt(text, STOP_SEQUENCES[j], i)
    {
      var found := FindOne(text, STOP_SEQUENCES[k]);
      if found.Some? {
        earliest := Some(if earliest.Some? && earliest.value <= found.value then earliest.value else found.value);
      }
      k := k + 1;
    }
    if earliest.Some? {
      assert MarkerAt(text, earliest.value);
    }
  }

  /** The text before the first marker, without the whitespace that led up to it; none when there is no marker. */
  function TruncatedAtStop(text: string): Option<string> {
    match FindStop(text)
    case None => None
    case Some(idx) => Some(TrimEnd(text[..idx]))
  }

  // ---------------------------------------------------------------------------
  // The look-ahead window
  // ---------------------------------------------------------------------------

  /** Largest number of leading characters of `text`, at most `k`, that fit in `limit` bytes. */
  function FloorBoundary(text: string, limit: nat, k: nat): (r: nat)
    requires k <= |text|
    ensures r <= k
    ensures ByteLen(text[..r]) <= limit
    ensures forall j :: r < j <= k ==> ByteLen(text[..j]) > limit
  {
    if k == 0 || ByteLen(text[..k]) <= limit then k else FloorBoundary(text, limit, k - 1)
  }

  /** Characters safely behind the window. */
  function SafeEnd(text: string): (r: nat)
    ensures r <= |text|
  {
    FloorBoundary(text, if ByteLen(text) < LOOKAHEAD_BYTES then 0 else ByteLen(text) - LOOKAHEAD_BYTES, |text|)
  }

  // ---------------------------------------------------------------------------
  // The stream state and its steps
  // ---------------------------------------------------------------------------

  /** `flushed` counts the characters of `response` already delivered; `delivered` is everything the caller saw. */
  datatype Stream = Stream(response: string, pending: seq<byte>, emitted: nat, flushed: nat, delivered: string)

  const EMPTY: Stream := Stream("", [], 0, 0, "")

  /** Take in the bytes of one token; a token that does not decode is skipped. */
  function AppendTokenBytes(s: Stream, more: Option<seq<byte>>): Stream {
    if more.None? then s else
    var pending := s.pending + more.value;
    var validEnd := ValidUpTo(pending);
    if validEnd <= s.emitted then s.(pending := pending)
    else s.(pending := pending, emitted := validEnd,
            response := s.response + StripEmoji(Chars(pending[s.emitted..validEnd])))
  }

  function FlushSafeWindow(s: Stream): Stream
    requires s.flushed <= |s.response|
  {
    var safe := SafeEnd(s.response);
    if safe > s.flushed then s.(delivered := s.delivered + s.response[s.flushed..safe], flushed := safe) else s
  }

  /** End of the turn: deliver the held-back text, and a replacement character for a cut-off one. */
  function Finalize(s: Stream): Stream {
    var s1 := if s.flushed < |s.response|
              then s.(delivered := s.delivered + s.response[s.flushed..]) else s;
    if s.emitted < |s.pending|
    then s1.(delivered := s1.delivered + REPLACEMENT, response := s1.response + REPLACEMENT) else s1
  }

  /** What one round of the decode loop met. */
  datatype Step =
    | Cancel
    | LogitsError
    | SampleError
    | StopToken
    | Token(bytes: Option<seq<byte>>, forwarded: bool)

  /** How the decode loop ended: with a reply, or with an error and the text then on screen. */
  datatype Outcome = Finished(stream: Stream) | Failed(visible: string, stream: Stream)

  /** The decode loop over a script of rounds; `bitnet` turns the marker scan on. */
  function Drive(bitnet: bool, s: Stream, script: seq<Step>): Outcome
    requires s.flushed <= |s.response|
    decreases |script|
  {
    if script == [] then Finished(Finalize(s)) else
    match script[0]
    case Cancel => Finished(Finalize(s))
    case StopToken => Finished(Finalize(s))
    case LogitsError => Failed(s.response[..s.flushed], s)
    case SampleError => Failed(s.response[..s.flushed], s)
    case Token(bytes, forwarded) =>
      var s1 := AppendTokenBytes(s, bytes);
      if !forwarded then Failed(s1.response[..s1.flushed], s1) else
      if bitnet && TruncatedAtStop(s1.response).Some?
      then Finished(Finalize(s1.(response := TruncatedAtStop(s1.response).value)))
      else Drive(bitnet, FlushSafeWindow(s1), script[1..])
  }

  // ---------------------------------------------------------------------------
  // The text does not depend on token boundaries
  // ---------------------------------------------------------------------------

  lemma {:induction false} StripConcat(a: string, b: string)
    ensures StripEmoji(a + b) == StripEmoji(a) + StripEmoji(b)
  {
    hide IsEmoji;
    if a == [] {
      assert a + b == b;
    } else {
      StripConcat(a[1..], b);
      assert (a + b)[1..] == a[1..] + b;
      var head := if IsEmoji(a[0]) then [] else [a[0]];
      assert head + (StripEmoji(a[1..]) + StripEmoji(b)) == head + StripEmoji(a[1..]) + StripEmoji(b);
    }
  }

  /** The reply so far is the emoji-free text of the longest valid prefix of all the bytes so far. */
  ghost predicate Decoded(s: Stream) {
    s.emitted == ValidUpTo(s.pending) && s.response == StripEmoji(Chars(s.pending))
  }

  lemma AppendDecoded(s: Stream, more: Option<seq<byte>>)
    requires Decoded(s)
    ensures var s1 := AppendTokenBytes(s, more);
            && Decoded(s1) && s1.flushed == s.flushed && s1.delivered == s.delivered && s.response <= s1.response
            && s1.pending == s.pending + (if more.Some? then more.value else [])
  {
    hide FrontWidth, ValidUpTo, Chars, StripEmoji;
    if more.Some? {
      var e, t := s.emitted, more.value;
      var pending := s.pending + t;
      var validEnd := ValidUpTo(pending);
      DecodeMore(s.pending, t);
      var rest := s.pending[e..] + t;
      assert pending[e..] == rest;
      var v := ValidUpTo(rest);
      assert pending[e..validEnd] == rest[..v];
      CharsOfPrefix(rest);
      StripConcat(Chars(s.pending), Chars(rest));
      if validEnd <= e {
        EmptyChars(rest);
      }
    } else {
      assert s.pending + [] == s.pending;
    }
  }

  /** Decoding the valid prefix on its own gives the same characters. */
  lemma CharsOfPrefix(s: seq<byte>)
    ensures Chars(s[..ValidUpTo(s)]) == Chars(s)
  {
    ValidPrefixIsEncoded(s);
    DecodeEncode(Chars(s));
  }

  lemma EmptyChars(s: seq<byte>)
    ensures ValidUpTo(s) == 0 ==> Chars(s) == [] && StripEmoji(Chars(s)) == []
  {
  }

  function AppendAll(s: Stream, chunks: seq<seq<byte>>): Stream {
    if chunks == [] then s else AppendTokenBytes(AppendAll(s, chunks[..|chunks| - 1]), Some(chunks[|chunks| - 1]))
  }

  function Concat(chunks: seq<seq<byte>>): seq<byte> {
    if chunks == [] then [] else Concat(chunks[..|chunks| - 1]) + chunks[|chunks| - 1]
  }

  /** For every way of cutting the bytes into tokens, the reply is the text of the bytes as a whole. */
  lemma {:induction false} TokenBoundariesDoNotShow(chunks: seq<seq<byte>>)
    ensures var s := AppendAll(EMPTY, chunks);
            && s.response == StripEmoji(Chars(Concat(chunks)))
            && s.pending == Concat(chunks) && s.emitted == ValidUpTo(Concat(chunks))
  {
    hide FrontWidth, StripEmoji;
    if chunks == [] {
      EmptyChars([]);
    } else {
      var n := |chunks| - 1;
      TokenBoundariesDoNotShow(chunks[..n]);
      AppendDecoded(AppendAll(EMPTY, chunks[..n]), Some(chunks[n]));
    }
  }

  // ---------------------------------------------------------------------------
  // No marker is ever delivered
  // ---------------------------------------------------------------------------

  lemma MarkersAreShort()
    ensures forall k :: 0 <= k < |STOP_SEQUENCES| ==> 0 < |STOP_SEQUENCES[k]| <= 16
    ensures forall k, i :: 0 <= k < |STOP_SEQUENCES| && 0 <= i < |STOP_SEQUENCES[k]| ==> (STOP_SEQUENCES[k][i] as int) < 0x80
  {
  }

  lemma {:induction false} AsciiLen(text: string)
    requires forall i :: 0 <= i < |text| ==> (text[i] as int) < 0x80
    ensures ByteLen(text) == |text|
  {
    if text != [] {
      AsciiLen(text[..|text| - 1]);
    }
  }

  /** What has been flushed is at least a window behind the end of the reply. */
  ghost predicate Behind(text: string, flushed: nat) {
    flushed <= |text| && (flushed == 0 || ByteLen(text[..flushed]) + LOOKAHEAD_BYTES <= ByteLen(text))
  }

  /** A marker inside a prefix is a marker of the whole. */
  lemma MarkerOfPrefix(text: string, n: nat, i: nat)
    requires n <= |text| && MarkerAt(text[..n], i)
    ensures MarkerAt(text, i) && i < n
  {
    MarkersAreShort();
    var k :| 0 <= k < |STOP_SEQUENCES| && OccursAt(text[..n], STOP_SEQUENCES[k], i);
    assert text[..n][i..i + |STOP_SEQUENCES[k]|] == text[i..i + |STOP_SEQUENCES[k]|];
    assert OccursAt(text, STOP_SEQUENCES[k], i);
  }

  /** A marker of a longer text is already in the shorter one, or only a few bytes of it are. */
  lemma MarkerStraddles(before: string, text: string, idx: nat)
    requires before <= text && MarkerAt(text, idx)
    ensures MarkerAt(before, idx) || |before| <= idx || ByteLen(before[idx..]) < 16
  {
    MarkersAreShort();
    var k :| 0 <= k < |STOP_SEQUENCES| && OccursAt(text, STOP_SEQUENCES[k], idx);
    var stop := STOP_SEQUENCES[k];
    if idx + |stop| <= |before| {
      assert before[idx..idx + |stop|] == text[idx..idx + |stop|];
      assert OccursAt(before, stop, idx);
    } else if idx < |before| {
      var tail := before[idx..];
      assert forall i :: 0 <= i < |tail| ==> tail[i] == stop[i];
      AsciiLen(tail);
    }
  }

  lemma ByteLenMonotone(text: string, i: nat, j: nat)
    requires i <= j <= |text|
    ensures ByteLen(text[..i]) <= ByteLen(text[..j])
    ensures ByteLen(text) == ByteLen(text[..i]) + ByteLen(text[i..])
  {
    hide ByteLen;
    assert text[..j] == text[..i] + text[i..j];
    ByteLenConcat(text[..i], text[i..j]);
    assert text == text[..i] + text[i..];
    ByteLenConcat(text[..i], text[i..]);
  }

  /** A marker that appears when text is added starts at or after everything already flushed. */
  lemma MarkerAfterFlushed(before: string, added: string, flushed: nat, idx: nat)
    requires Behind(before, flushed) && !HasMarker(before)
    requires MarkerAt(before + added, idx)
    ensures flushed <= idx
  {
    MarkerStraddles(before, before + added, idx);
    if idx < flushed {
      ByteLenMonotone(before, idx, flushed);
    }
  }

  /** Cutting a text short leaves no marker that was not in it. */
  lemma PrefixHasNoMarker(text: string, n: nat)
    requires n <= |text| && !HasMarker(text)
    ensures !HasMarker(text[..n])
  {
    forall i: nat | MarkerAt(text[..n], i) ensures HasMarker(text) {
      MarkerOfPrefix(text, n, i);
    }
  }

  /** Nor is there one before the first one. */
  lemma BeforeFirstMarker(text: string, idx: nat, n: nat)
    requires FindStop(text) == Some(idx) && n <= idx
    ensures !HasMarker(text[..n])
  {
    forall i: nat | MarkerAt(text[..n], i) ensures MarkerAt(text, i) && i < idx {
      MarkerOfPrefix(text, n, i);
    }
  }

  /** A replacement character completes no marker. */
  lemma ReplacementAddsNoMarker(text: string)
    requires !HasMarker(text)
    ensures !HasMarker(text + REPLACEMENT)
  {
    forall i: nat | MarkerAt(text + REPLACEMENT, i) ensures HasMarker(text) {
      MarkersAreShort();
      var k :| 0 <= k < |STOP_SEQUENCES| && OccursAt(text + REPLACEMENT, STOP_SEQUENCES[k], i);
      var stop := STOP_SEQUENCES[k];
      assert (text + REPLACEMENT)[i..i + |stop|][|stop| - 1] == (text + REPLACEMENT)[i + |stop| - 1];
      assert (text + REPLACEMENT)[|text|] == REPLACEMENT[0];
      assert i + |stop| <= |text|;
      assert text[i..i + |stop|] == (text + REPLACEMENT)[i..i + |stop|];
      assert OccursAt(text, stop, i);
      assert MarkerAt(text, i);
    }
  }

  /** What every round of the loop keeps. */
  ghost predicate Inv(bitnet: bool, s: Stream) {
    && Decoded(s)
    && Behind(s.response, s.flushed)
    && s.delivered == s.response[..s.flushed]
    && (bitnet ==> !HasMarker(s.response))
  }

  lemma FlushKeeps(bitnet: bool, s: Stream)
    requires Inv(bitnet, s)
    ensures Inv(bitnet, FlushSafeWindow(s)) && FlushSafeWindow(s).pending == s.pending
  {
    var safe := SafeEnd(s.response);
    if safe > s.flushed {
      assert s.response[..s.flushed] + s.response[s.flushed..safe] == s.response[..safe];
      ByteLenPositive(s.response, safe);
    }
  }

  lemma ByteLenPositive(text: string, n: nat)
    requires 0 < n <= |text|
    ensures ByteLen(text[..n]) > 0
  {
  }

  lemma LongerStaysBehind(before: string, text: string, flushed: nat)
    requires Behind(before, flushed) && before <= text
    ensures Behind(text, flushed)
  {
    assert text == before + text[|before|..];
    ByteLenConcat(before, text[|before|..]);
    assert text[..flushed] == before[..flushed];
  }

  /** A round that continues keeps the invariant. */
  lemma TokenKeeps(bitnet: bool, s: Stream, bytes: Option<seq<byte>>)
    requires Inv(bitnet, s)
    ensures var s1 := AppendTokenBytes(s, bytes);
            && Behind(s1.response, s1.flushed) && s1.delivered == s1.response[..s1.flushed]
            && (!bitnet || !HasMarker(s1.response) ==> Inv(bitnet, s1))
  {
    hide Chars, ValidUpTo, StripEmoji;
    var s1 := AppendTokenBytes(s, bytes);
    AppendDecoded(s, bytes);
    LongerStaysBehind(s.response, s1.response, s.flushed);
    assert s1.response[..s.flushed] == s.response[..s.flushed];
  }

  /** The pieces of a finished reply: common text, whitespace only the caller saw, and the cut-off mark. */
  datatype Parts = Parts(kept: string, trimmed: string, mark: string)

  /** Recorded and delivered text differ at most in whitespace that was trimmed after being shown. */
  ghost predicate AgreeBut(p: Parts, recorded: string, delivered: string) {
    && recorded == p.kept + p.mark && delivered == p.kept + p.trimmed + p.mark
    && (p.mark == "" || p.mark == REPLACEMENT)
    && forall i :: 0 <= i < |p.trimmed| ==> IsWhitespace(p.trimmed[i])
  }

  lemma FinalizePlain(bitnet: bool, s: Stream) returns (p: Parts)
    requires Inv(bitnet, s)
    ensures var f := Finalize(s);
            && AgreeBut(p, f.response, f.delivered) && p.trimmed == "" && p.kept == s.response
            && (bitnet ==> !HasMarker(f.delivered))
            && p.mark == (if ValidUpTo(s.pending) < |s.pending| then REPLACEMENT else "")
  {
    assert s.response[..s.flushed] + s.response[s.flushed..] == s.response;
    var mark := if s.emitted < |s.pending| then REPLACEMENT else "";
    p := Parts(s.response, "", mark);
    assert s.response + "" == s.response;
    if bitnet {
      ReplacementAddsNoMarker(s.response);
    }
  }

  /** Delivering from `flushed` on when the cut text reaches that far, and not at all when it does not. */
  lemma FinalizeShown(s: Stream, kept: string, cut: string) returns (p: Parts)
    requires kept <= cut && s.flushed <= |cut| && s.delivered == cut[..s.flushed]
    requires forall i :: |kept| <= i < |cut| ==> IsWhitespace(cut[i])
    ensures var f := Finalize(s.(response := kept));
            && AgreeBut(p, f.response, f.delivered)
            && p.kept == kept && |p.trimmed| == (if s.flushed <= |kept| then 0 else s.flushed - |kept|)
            && exists n :: 0 <= n <= |cut| && f.delivered == cut[..n] + p.mark
  {
    var mark := if s.emitted < |s.pending| then REPLACEMENT else "";
    if s.flushed <= |kept| {
      p := Parts(kept, "", mark);
      assert kept[..s.flushed] == cut[..s.flushed];
      assert kept[..s.flushed] + kept[s.flushed..] == kept == cut[..|kept|];
      assert kept + "" == kept;
      assert s.delivered + kept[s.flushed..] + "" == kept + "";
    } else {
      p := Parts(kept, cut[|kept|..s.flushed], mark);
      assert kept + cut[|kept|..s.flushed] == cut[..s.flushed];
      assert cut[..s.flushed] + "" == cut[..s.flushed];
      assert kept + "" == kept;
    }
  }

  lemma FinalizeCut(s: Stream, s1: Stream, added: string) returns (p: Parts)
    requires Inv(true, s)
    requires s1.response == s.response + added && s1.flushed == s.flushed && s1.delivered == s.delivered
    requires TruncatedAtStop(s1.response).Some?
    ensures var f := Finalize(s1.(response := TruncatedAtStop(s1.response).value));
            && AgreeBut(p, f.response, f.delivered)
            && p.kept == TruncatedAtStop(s1.response).value
            && |p.trimmed| == (if s.flushed <= |p.kept| then 0 else s.flushed - |p.kept|)
            && !HasMarker(f.delivered)
  {
    hide Finalize, HasMarker, AgreeBut, TrimEnd, SafeEnd, ByteLen, StripEmoji, Chars, ValidUpTo, IsWhitespace;
    var idx := FindStop(s1.response).value;
    MarkerAfterFlushed(s.response, added, s.flushed, idx);
    var cut := s1.response[..idx];
    assert s.response[..s.flushed] == cut[..s.flushed];
    p := FinalizeShown(s1, TrimEnd(cut), cut);
    var f := Finalize(s1.(response := TrimEnd(cut)));
    var n :| 0 <= n <= |cut| && f.delivered == cut[..n] + p.mark;
    assert cut[..n] == s1.response[..n];
    BeforeFirstMarker(s1.response, idx, n);
    ReplacementAddsNoMarker(cut[..n]);
    assert cut[..n] + "" == cut[..n];
  }

  /**
    Every run of the decode loop, from any state it can be in. With the marker scan on,
    nothing it delivers contains a marker. When it fails, the text reported as visible
    is exactly what was delivered. When it finishes, the recorded reply is what was
    delivered except for whitespace trimmed in front of a cut-off marker, and without
    the scan there is no exception.
    */
  lemma {:induction false} DriveIsHonest(bitnet: bool, s: Stream, script: seq<Step>) returns (p: Parts)
    requires Inv(bitnet, s)
    ensures var out := Drive(bitnet, s, script);
            && (bitnet ==> !HasMarker(out.stream.delivered))
            && (out.Failed? ==> out.visible == out.stream.delivered)
            && (out.Finished? ==> AgreeBut(p, out.stream.response, out.stream.delivered))
            && (out.Finished? && !bitnet ==> out.stream.response == out.stream.delivered)
    decreases |script|
  {
    hide Chars, ValidUpTo, StripEmoji, SafeEnd, Finalize;
    p := Parts("", "", "");
    if bitnet {
      PrefixHasNoMarker(s.response, s.flushed);
    }
    if script == [] || script[0].Cancel? || script[0].StopToken? {
      p := FinalizePlain(bitnet, s);
      assert p.kept + "" == p.kept;
    } else if script[0].Token? {
      var s1 := AppendTokenBytes(s, script[0].bytes);
      TokenKeeps(bitnet, s, script[0].bytes);
      AppendDecoded(s, script[0].bytes);
      if script[0].forwarded {
        if bitnet && TruncatedAtStop(s1.response).Some? {
          assert s1.response == s.response + s1.response[|s.response|..];
          p := FinalizeCut(s, s1, s1.response[|s.response|..]);
        } else {
          FlushKeeps(bitnet, s1);
          p := DriveIsHonest(bitnet, FlushSafeWindow(s1), script[1..]);
        }
      }
    }
  }

  // ---------------------------------------------------------------------------
  // Rounds that continue, one by one
  // ---------------------------------------------------------------------------

  /** The state after a round that does not end the loop; none when it does. */
  function Round(bitnet: bool, s: Stream, step: Step): (r: Option<Stream>)
    requires s.flushed <= |s.response|
    ensures r.Some? ==> r.value.flushed <= |r.value.response|
  {
    if !step.Token? || !step.forwarded then None else
    var s1 := AppendTokenBytes(s, step.bytes);
    if bitnet && TruncatedAtStop(s1.response).Some? then None else Some(FlushSafeWindow(s1))
  }

  function Rounds(bitnet: bool, s: Stream, steps: seq<Step>): (r: Option<Stream>)
    requires s.flushed <= |s.response|
    ensures r.Some? ==> r.value.flushed <= |r.value.response|
  {
    if steps == [] then Some(s) else
    var s1 :- Rounds(bitnet, s, steps[..|steps| - 1]);
    Round(bitnet, s1, steps[|steps| - 1])
  }

  lemma DriveRound(bitnet: bool, s: Stream, x: Step, rest: seq<Step>)
    requires s.flushed <= |s.response| && Round(bitnet, s, x).Some?
    ensures Drive(bitnet, s, [x] + rest) == Drive(bitnet, Round(bitnet, s, x).value, rest)
  {
    hide AppendTokenBytes, TruncatedAtStop, Finalize, FlushSafeWindow;
    assert ([x] + rest)[1..] == rest;
  }

  /** After rounds that continue, the loop is where those rounds left it. */
  lemma {:induction false} DriveAfterRounds(bitnet: bool, s: Stream, done: seq<Step>, rest: seq<Step>)
    requires s.flushed <= |s.response| && Rounds(bitnet, s, done).Some?
    ensures Drive(bitnet, s, done + rest) == Drive(bitnet, Rounds(bitnet, s, done).value, rest)
    decreases |done|
  {
    hide Drive, Round;
    if done == [] {
      assert done + rest == rest;
    } else {
      var n := |done| - 1;
      DriveAfterRounds(bitnet, s, done[..n], [done[n]] + rest);
      assert done[..n] + ([done[n]] + rest) == done + rest;
      DriveRound(bitnet, Rounds(bitnet, s, done[..n]).value, done[n], rest);
    }
  }

  /** The loop starts in a state that satisfies the invariant. */
  lemma EmptyInv(bitnet: bool)
    ensures Inv(bitnet, EMPTY)
  {
    MarkersAreShort();
    forall i: nat ensures !MarkerAt("", i) {
    }
  }
}
