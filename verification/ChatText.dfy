/**
  What a streamed reply is, said of the bytes of its tokens rather than of the loop: which
  text is recorded, how much of it the caller has already seen, which markers end it and
  what is taken out of it.
  */
module ChatText {
  import opened Wrappers
  import opened Utf8
  import opened ChatStream

  // ---------------------------------------------------------------------------
  // Text
  // ---------------------------------------------------------------------------

  /** The bytes of the tokens that decode, one after another. */
  function BytesOf(steps: seq<Step>): seq<byte> {
    if steps == [] then [] else
    var x := steps[|steps| - 1];
    BytesOf(steps[..|steps| - 1]) + (if x.Token? && x.bytes.Some? then x.bytes.value else [])
  }

  /** Their text: as many whole characters as there are, without emoji. */
  function TextOf(steps: seq<Step>): string {
    StripEmoji(Chars(BytesOf(steps)))
  }

  /** The bytes end in the middle of a character. */
  predicate EndsInside(bytes: seq<byte>) {
    ValidUpTo(bytes) < |bytes|
  }

  function Mark(bytes: seq<byte>): string {
    if EndsInside(bytes) then "\U{FFFD}" else ""
  }

  /** What of a text is delivered while the reply goes on: all of it but what its last 24 bytes may still change. */
  ghost predicate IsShown(text: string, delivered: string) {
    && delivered <= text
    && (delivered == "" || ByteLen(delivered) + 24 <= ByteLen(text))
    && forall n :: |delivered| < n <= |text| ==> ByteLen(text[..n]) + 24 > ByteLen(text)
  }

  lemma SafeIsMost(text: string)
    ensures var n := SafeEnd(text);
      forall j :: n < j <= |text| ==> ByteLen(text[..j]) + LOOKAHEAD_BYTES > ByteLen(text)
  {
    hide ByteLen;
    var limit := if ByteLen(text) < LOOKAHEAD_BYTES then 0 else ByteLen(text) - LOOKAHEAD_BYTES;
    var n := SafeEnd(text);
    forall j | n < j <= |text| ensures ByteLen(text[..j]) + LOOKAHEAD_BYTES > ByteLen(text) {
      assert ByteLen(text[..j]) > limit;
    }
  }

  lemma FlushShows(bitnet: bool, s: Stream)
    requires Inv(bitnet, s)
    ensures var t := FlushSafeWindow(s); IsShown(t.response, t.delivered) && t.response == s.response
  {
    hide SafeEnd, Chars, ValidUpTo, StripEmoji, ByteLen, HasMarker;
    FlushKeeps(bitnet, s);
    var t := FlushSafeWindow(s);
    SafeIsMost(s.response);
    assert t.flushed >= SafeEnd(s.response);
    assert |t.delivered| == t.flushed;
    if t.flushed > 0 { assert t.delivered == t.response[..t.flushed]; }
  }

  /**
    While the loop goes on, the reply is the text of the tokens so far, and the caller has
    seen exactly what lies more than the window behind its end.
    */
  lemma {:induction false} RoundsAreText(bitnet: bool, steps: seq<Step>)
    requires Rounds(bitnet, EMPTY, steps).Some?
    ensures var s := Rounds(bitnet, EMPTY, steps).value;
      && s.response == TextOf(steps) && s.pending == BytesOf(steps) && Inv(bitnet, s)
      && IsShown(s.response, s.delivered)
  {
    hide Chars, ValidUpTo, StripEmoji, SafeEnd, Finalize, HasMarker, ByteLen, Inv, IsShown;
    if steps == [] {
      EmptyInv(bitnet);
      NothingShown();
      EmptyChars([]);
      NothingValid();
    } else {
      var n := |steps| - 1;
      RoundsAreText(bitnet, steps[..n]);
      RoundIsText(bitnet, Rounds(bitnet, EMPTY, steps[..n]).value, steps[n]);
    }
  }

  lemma NothingShown()
    ensures IsShown("", "")
  {
  }

  lemma NothingValid()
    ensures ValidUpTo([]) == 0
  {
  }

  lemma RoundIsText(bitnet: bool, s: Stream, x: Step)
    requires Inv(bitnet, s) && Round(bitnet, s, x).Some?
    ensures var t := Round(bitnet, s, x).value;
      && x.Token? && t.pending == s.pending + (if x.bytes.Some? then x.bytes.value else [])
      && t.response == StripEmoji(Chars(t.pending)) && Inv(bitnet, t) && IsShown(t.response, t.delivered)
  {
    hide Chars, ValidUpTo, StripEmoji, SafeEnd, HasMarker, ByteLen, IsShown;
    var s1 := AppendTokenBytes(s, x.bytes);
    AppendDecoded(s, x.bytes);
    TokenKeeps(bitnet, s, x.bytes);
    assert Inv(bitnet, s1);
    FlushKeeps(bitnet, s1);
    FlushShows(bitnet, s1);
  }

  /** Step `k` is a token that forwards and, where markers are looked for, completes none. */
  ghost predicate PassesAt(bitnet: bool, steps: seq<Step>, k: nat)
    requires k < |steps|
  {
    steps[k].Token? && steps[k].forwarded && (bitnet ==> !HasMarker(TextOf(steps[..k + 1])))
  }

  /** The loop goes on exactly over such steps. */
  lemma {:induction false} LoopGoesOn(bitnet: bool, steps: seq<Step>)
    ensures Rounds(bitnet, EMPTY, steps).Some? <==> forall k: nat :: k < |steps| ==> PassesAt(bitnet, steps, k)
  {
    hide Round, HasMarker, TextOf;
    if steps != [] {
      var n := |steps| - 1;
      LoopGoesOn(bitnet, steps[..n]);
      forall k: nat | k < n ensures PassesAt(bitnet, steps[..n], k) <==> PassesAt(bitnet, steps, k) {
        assert steps[..n][..k + 1] == steps[..k + 1];
      }
      assert steps[..n + 1] == steps;
      if Rounds(bitnet, EMPTY, steps[..n]).Some? {
        RoundGoesOn(bitnet, steps);
        assert PassesAt(bitnet, steps, n) <==> Rounds(bitnet, EMPTY, steps).Some?;
        forall k: nat | k < n ensures PassesAt(bitnet, steps, k) {
          assert PassesAt(bitnet, steps[..n], k);
        }
      } else {
        var k: nat :| k < n && !PassesAt(bitnet, steps[..n], k);
        assert !PassesAt(bitnet, steps, k);
      }
    }
  }

  lemma RoundGoesOn(bitnet: bool, steps: seq<Step>)
    requires steps != [] && Rounds(bitnet, EMPTY, steps[..|steps| - 1]).Some?
    ensures var x := steps[|steps| - 1];
      Rounds(bitnet, EMPTY, steps).Some? <==> x.Token? && x.forwarded && (bitnet ==> !HasMarker(TextOf(steps)))
  {
    hide Chars, ValidUpTo, StripEmoji, SafeEnd, HasMarker, ByteLen, IsShown;
    var n := |steps| - 1;
    RoundsAreText(bitnet, steps[..n]);
    var s := Rounds(bitnet, EMPTY, steps[..n]).value;
    if steps[n].Token? {
      AppendDecoded(s, steps[n].bytes);
    }
  }

  /** The loop ends on its own, at a stop token, or because it was cancelled. */
  predicate Ends(rest: seq<Step>) {
    rest == [] || rest[0].Cancel? || rest[0].StopToken?
  }

  /** Then the reply recorded, and shown, is all of the text, with a mark for a character cut off. */
  lemma ReplyIsAllText(bitnet: bool, steps: seq<Step>, rest: seq<Step>)
    requires Rounds(bitnet, EMPTY, steps).Some? && Ends(rest)
    ensures var out := Drive(bitnet, EMPTY, steps + rest);
      && out.Finished?
      && out.stream.response == TextOf(steps) + Mark(BytesOf(steps)) == out.stream.delivered
  {
    hide Chars, ValidUpTo, StripEmoji, SafeEnd, HasMarker, ByteLen, IsShown, Finalize;
    DriveAfterRounds(bitnet, EMPTY, steps, rest);
    RoundsAreText(bitnet, steps);
    var s := Rounds(bitnet, EMPTY, steps).value;
    var p := FinalizePlain(bitnet, s);
    assert p.kept + "" == p.kept;
  }

  /** `kept` is `text` without the whitespace at its end. */
  ghost predicate IsTrimmed(text: string, kept: string) {
    && kept <= text
    && (forall i :: |kept| <= i < |text| ==> IsWhitespace(text[i]))
    && (kept != "" ==> !IsWhitespace(kept[|kept| - 1]))
  }

  lemma {:induction false} TrimEndIsTrimmed(text: string)
    ensures IsTrimmed(text, TrimEnd(text))
  {
    if text != [] && IsWhitespace(text[|text| - 1]) {
      TrimEndIsTrimmed(text[..|text| - 1]);
    }
  }

  /** Some marker is at `idx` and none before it. */
  ghost predicate IsFirstMarker(text: string, idx: nat) {
    idx <= |text| && MarkerAt(text, idx) && forall i: nat :: i < idx ==> !MarkerAt(text, i)
  }

  /**
    Where markers are looked for, the token that completes one ends the reply: what is
    recorded is the text before the first marker without the whitespace that led up to it;
    what comes after that token does not matter.
    */
  lemma ReplyIsCutText(steps: seq<Step>, x: Step, rest: seq<Step>) returns (idx: nat, kept: string)
    requires Rounds(true, EMPTY, steps).Some? && x.Token? && x.forwarded && HasMarker(TextOf(steps + [x]))
    ensures var text := TextOf(steps + [x]);
      IsFirstMarker(text, idx) && IsTrimmed(text[..idx], kept)
    ensures var out := Drive(true, EMPTY, steps + [x] + rest);
      out.Finished? && out.stream.response == kept + Mark(BytesOf(steps + [x]))
  {
    hide Chars, ValidUpTo, StripEmoji, SafeEnd, ByteLen, IsShown, HasMarker, MarkerAt, Finalize;
    assert steps + [x] + rest == steps + ([x] + rest);
    DriveAfterRounds(true, EMPTY, steps, [x] + rest);
    RoundsAreText(true, steps);
    var s := Rounds(true, EMPTY, steps).value;
    var s1 := AppendTokenBytes(s, x.bytes);
    AppendDecoded(s, x.bytes);
    assert (steps + [x])[..|steps|] == steps;
    assert s1.response == TextOf(steps + [x]);
    idx := FindStop(s1.response).value;
    kept := TrimEnd(s1.response[..idx]);
    TrimEndIsTrimmed(s1.response[..idx]);
    CutFinalized(s1, kept);
  }

  lemma CutFinalized(s: Stream, kept: string)
    requires s.emitted == ValidUpTo(s.pending)
    ensures Finalize(s.(response := kept)).response == kept + Mark(s.pending)
  {
    hide ValidUpTo;
    assert kept + "" == kept;
  }

  /** The reply that tokens of these bytes make, up to the first marker where markers are looked for. */
  ghost predicate IsReplyText(bitnet: bool, bytes: seq<byte>, reply: string) {
    var text := StripEmoji(Chars(bytes));
    if bitnet && HasMarker(text)
    then exists idx: nat, kept: string ::
           IsFirstMarker(text, idx) && IsTrimmed(text[..idx], kept) && reply == kept + Mark(bytes)
    else reply == text + Mark(bytes)
  }

  /** The loop over forwarded tokens, and what ends it. */
  ghost predicate IsLoop(bitnet: bool, done: seq<Step>, tail: seq<Step>) {
    && Rounds(bitnet, EMPTY, done).Some?
    && |tail| <= 1 && (tail != [] ==> Round(bitnet, Rounds(bitnet, EMPTY, done).value, tail[0]).None?)
  }

  /** The bytes of all tokens taken in, with the last one if it forwarded. */
  lemma ReplyOfLoop(bitnet: bool, done: seq<Step>, tail: seq<Step>)
    requires IsLoop(bitnet, done, tail) && Drive(bitnet, EMPTY, done + tail).Finished?
    ensures IsReplyText(bitnet, BytesOf(done + tail), Drive(bitnet, EMPTY, done + tail).stream.response)
  {
    hide Chars, ValidUpTo, StripEmoji, SafeEnd, ByteLen, HasMarker, Finalize, Drive, Round, IsFirstMarker, IsTrimmed, Mark, EndsInside;
    DriveAfterRounds(bitnet, EMPTY, done, tail);
    RoundsAreText(bitnet, done);
    if tail == [] {
      assert done + tail == done;
      ReplyIsAllText(bitnet, done, tail);
      NoMarkerYet(bitnet, done);
    } else if tail[0].Token? {
      assert [tail[0]] == tail;
      TokenEnds(bitnet, done, tail[0]);
      assert done + tail + [] == done + tail;
      var idx, kept := ReplyIsCutText(done, tail[0], []);
    } else {
      assert [tail[0]] == tail;
      OtherEnds(bitnet, done, tail[0]);
      assert (done + tail)[..|done|] == done;
      assert BytesOf(done + tail) == BytesOf(done) + [] == BytesOf(done);
      ReplyIsAllText(bitnet, done, tail);
      NoMarkerYet(bitnet, done);
    }
  }

  lemma NoMarkerYet(bitnet: bool, done: seq<Step>)
    requires Rounds(bitnet, EMPTY, done).Some?
    ensures bitnet ==> !HasMarker(StripEmoji(Chars(BytesOf(done))))
  {
    hide Chars, ValidUpTo, StripEmoji, HasMarker;
    RoundsAreText(bitnet, done);
  }

  /** A token that ends the loop with a reply has completed a marker. */
  lemma TokenEnds(bitnet: bool, done: seq<Step>, x: Step)
    requires Rounds(bitnet, EMPTY, done).Some? && x.Token?
    requires Round(bitnet, Rounds(bitnet, EMPTY, done).value, x).None?
    requires Drive(bitnet, Rounds(bitnet, EMPTY, done).value, [x]).Finished?
    ensures bitnet && x.forwarded && HasMarker(TextOf(done + [x]))
  {
    hide Chars, ValidUpTo, StripEmoji, SafeEnd, ByteLen, HasMarker, Finalize;
    assert (done + [x])[..|done|] == done;
    RoundGoesOn(bitnet, done + [x]);
    assert Rounds(bitnet, EMPTY, done + [x]).None?;
  }

  lemma OtherEnds(bitnet: bool, done: seq<Step>, x: Step)
    requires Rounds(bitnet, EMPTY, done).Some? && !x.Token?
    requires Drive(bitnet, Rounds(bitnet, EMPTY, done).value, [x]).Finished?
    ensures Ends([x])
  {
    hide Finalize;
  }

  // ---------------------------------------------------------------------------
  // Markers and emoji
  // ---------------------------------------------------------------------------

  /** The turn markers a base model makes up, wherever they stand, and nothing else. */
  lemma MarkersAreThese(text: string, i: nat)
    ensures MarkerAt(text, i) <==>
      || OccursAt(text, "User:", i) || OccursAt(text, "Human:", i) || OccursAt(text, "Assistant:", i) || OccursAt(text, "AI:", i)
      || OccursAt(text, "BITNETAssistant:", i) || OccursAt(text, "AI Assistant:", i) || OccursAt(text, "Question:", i)
      || OccursAt(text, "User (", i) || OccursAt(text, "Human (", i) || OccursAt(text, "AI (", i)
  {
    hide OccursAt;
    var stops := STOP_SEQUENCES;
    assert stops[0] == "BITNETAssistant:" && stops[1] == "User:" && stops[2] == "Human:" && stops[3] == "AI Assistant:"
        && stops[4] == "AI:" && stops[5] == "Assistant:" && stops[6] == "Question:" && stops[7] == "Human ("
        && stops[8] == "User (" && stops[9] == "AI (";
    assert |stops| == 10;
    if MarkerAt(text, i) {
      var k :| 0 <= k < |STOP_SEQUENCES| && OccursAt(text, STOP_SEQUENCES[k], i);
    }
  }

  /** A marker with anything around it is found. */
  lemma MarkerIsFound(before: string, after: string)
    ensures HasMarker(before + "Human:" + after) && HasMarker(before + "AI (" + after)
  {
    hide HasMarker;
    FoundAt(before, "Human:", after, 2);
    FoundAt(before, "AI (", after, 9);
  }

  lemma FoundAt(before: string, stop: string, after: string, k: nat)
    requires k < |STOP_SEQUENCES| && STOP_SEQUENCES[k] == stop
    ensures HasMarker(before + stop + after)
  {
    var text := before + stop + after;
    assert text[|before|..|before| + |stop|] == stop;
    assert OccursAt(text, STOP_SEQUENCES[k], |before|);
    assert MarkerAt(text, |before|);
  }

  /** What is left of a text has no emoji, and a text without emoji is left alone. */
  lemma {:induction false} StripTakesEmojiOnly(text: string)
    ensures forall i :: 0 <= i < |StripEmoji(text)| ==> !IsEmoji(StripEmoji(text)[i])
    ensures (forall i :: 0 <= i < |text| ==> !IsEmoji(text[i])) ==> StripEmoji(text) == text
  {
    hide IsEmoji;
    if text != [] {
      StripTakesEmojiOnly(text[1..]);
      assert [text[0]] + text[1..] == text;
    }
  }

  /** Scripts and punctuation below the arrows and the whole of CJK stay; pictographs, flags and their joiners go. */
  lemma EmojiAreThese(c: char)
    ensures (c as int) < 0x200D ==> !IsEmoji(c)
    ensures 0x2E80 <= c as int < 0xFE00 ==> !IsEmoji(c)
    ensures c in "\U{2600}\U{27BF}\U{200D}\U{FE0F}\U{1F1E6}\U{1F1FF}\U{1F300}\U{1F600}\U{1F9FF}\U{1FA00}\U{1FAFF}" ==> IsEmoji(c)
    ensures c in "\U{200C}\U{25FF}\U{27C0}\U{FE10}\U{1F1E5}\U{1F200}\U{1F2FF}\U{1FB00}" ==> !IsEmoji(c)
  {
  }

  /** Blanks of every kind are trimmed; letters, digits, punctuation and the zero-width space are not. */
  lemma WhitespaceIsThese(c: char)
    ensures c in " \t\n\r\U{B}\U{C}\U{85}\U{A0}\U{1680}\U{2000}\U{200A}\U{2028}\U{2029}\U{202F}\U{205F}\U{3000}" ==> IsWhitespace(c)
    ensures 0x21 <= c as int < 0x85 || c in "\U{200B}\U{2060}\U{FEFF}" ==> !IsWhitespace(c)
  {
  }

  /** Encodings as the standard's table gives them, one for each width. */
  lemma EncodedExamples()
    ensures Encode('A') == [0x41] && Encode('\U{E9}') == [0xC3, 0xA9]
    ensures Encode('\U{20AC}') == [0xE2, 0x82, 0xAC] && Encode('\U{1F600}') == [0xF0, 0x9F, 0x98, 0x80]
  {
  }
}
