/** UTF-8 as section 4 of RFC 3629 defines it: one character, and the longest valid prefix of a byte string. */
module Utf8 {
  type byte = b: nat | b < 256 witness 0

  predicate Tail(b: byte) { 0x80 <= b <= 0xBF }

  /** Width of the character at the front of `s`; 0 when it is malformed or cut off. */
  function FrontWidth(s: seq<byte>): (w: nat)
    ensures w <= 4 && w <= |s|
  {
    if s == [] then 0
    else if s[0] <= 0x7F then 1
    else if 0xC2 <= s[0] <= 0xDF then
      if |s| >= 2 && Tail(s[1]) then 2 else 0
    else if 0xE0 <= s[0] <= 0xEF then
      if |s| >= 3 && ThreeByteLead(s[0], s[1]) && Tail(s[2]) then 3 else 0
    else if 0xF0 <= s[0] <= 0xF4 then
      if |s| >= 4 && FourByteLead(s[0], s[1]) && Tail(s[2]) && Tail(s[3]) then 4 else 0
    else 0
  }

  predicate ThreeByteLead(a: byte, b: byte) {
    if a == 0xE0 then 0xA0 <= b <= 0xBF else if a == 0xED then 0x80 <= b <= 0x9F else Tail(b)
  }

  predicate FourByteLead(a: byte, b: byte) {
    if a == 0xF0 then 0x90 <= b <= 0xBF else if a == 0xF4 then 0x80 <= b <= 0x8F else Tail(b)
  }

  /** Six more bits. */
  function Compose(high: int, low: int): int {
    high * 64 + low
  }

  /** The character whose bytes stand at the front of `s`. */
  function FrontChar(s: seq<byte>): (c: char)
    requires FrontWidth(s) > 0
    ensures Width(c) == FrontWidth(s)
  {
    var w := FrontWidth(s);
    if w == 1 then s[0] as char
    else if w == 2 then Compose(s[0] - 0xC0, s[1] - 0x80) as char
    else if w == 3 then Compose(Compose(s[0] - 0xE0, s[1] - 0x80), s[2] - 0x80) as char
    else Compose(Compose(Compose(s[0] - 0xF0, s[1] - 0x80), s[2] - 0x80), s[3] - 0x80) as char
  }

  /** Number of bytes of a character. */
  function Width(c: char): (w: nat)
    ensures 1 <= w <= 4
  {
    var n := c as int;
    if n < 0x80 then 1 else if n < 0x800 then 2 else if n < 0x10000 then 3 else 4
  }

  function Encode(c: char): (s: seq<byte>)
    ensures |s| == Width(c)
  {
    var n := c as int;
    if n < 0x80 then [n]
    else if n < 0x800 then [0xC0 + n / 64, 0x80 + n % 64]
    else if n < 0x10000 then [0xE0 + n / 64 / 64, 0x80 + n / 64 % 64, 0x80 + n % 64]
    else [0xF0 + n / 64 / 64 / 64, 0x80 + n / 64 / 64 % 64, 0x80 + n / 64 % 64, 0x80 + n % 64]
  }

  /** Bytes in the longest prefix of `s` that is valid UTF-8. */
  function ValidUpTo(s: seq<byte>): (n: nat)
    ensures n <= |s|
  {
    var w := FrontWidth(s);
    if w == 0 then 0 else w + ValidUpTo(s[w..])
  }

  /** The characters of that prefix. */
  function Chars(s: seq<byte>): string {
    var w := FrontWidth(s);
    if w == 0 then [] else [FrontChar(s)] + Chars(s[w..])
  }

  function EncodeAll(text: string): seq<byte> {
    if text == [] then [] else Encode(text[0]) + EncodeAll(text[1..])
  }

  function ByteLen(text: string): nat {
    if text == [] then 0 else ByteLen(text[..|text| - 1]) + Width(text[|text| - 1])
  }

  // ---------------------------------------------------------------------------
  // Encoding and decoding are inverse
  // ---------------------------------------------------------------------------

  lemma Split64(n: nat)
    ensures Compose(n / 64, n % 64) == n
  {
  }

  lemma Join64(high: nat, low: nat)
    requires low < 64
    ensures Compose(high, low) / 64 == high && Compose(high, low) % 64 == low
  {
  }

  lemma EncodeFront(c: char, rest: seq<byte>)
    ensures FrontWidth(Encode(c) + rest) == Width(c) && FrontChar(Encode(c) + rest) == c
  {
    hide Compose;
    var n := c as int;
    var e := Encode(c);
    Split64(n);
    Split64(n / 64);
    Split64(n / 64 / 64);
    assert forall i :: 0 <= i < |e| ==> (e + rest)[i] == e[i];
  }

  lemma FourBytesEncoded(s: seq<byte>)
    requires FrontWidth(s) == 4
    ensures s[..4] == Encode(FrontChar(s))
  {
    hide Compose;
    var x := Compose(s[0] - 0xF0, s[1] - 0x80);
    var y := Compose(x, s[2] - 0x80);
    Join64(s[0] - 0xF0, s[1] - 0x80);
    Join64(x, s[2] - 0x80);
    Join64(y, s[3] - 0x80);
    assert FrontChar(s) as int == Compose(y, s[3] - 0x80);
  }

  lemma FrontIsEncoded(s: seq<byte>)
    requires FrontWidth(s) > 0
    ensures s[..FrontWidth(s)] == Encode(FrontChar(s))
  {
    hide Compose;
    var w := FrontWidth(s);
    if w == 4 {
      FourBytesEncoded(s);
    } else if w == 3 {
      var x := Compose(s[0] - 0xE0, s[1] - 0x80);
      Join64(s[0] - 0xE0, s[1] - 0x80);
      Join64(x, s[2] - 0x80);
      assert FrontChar(s) as int == Compose(x, s[2] - 0x80);
    } else if w == 2 {
      Join64(s[0] - 0xC0, s[1] - 0x80);
    }
  }

  /** Decoding inverts encoding, for every text. */
  lemma {:induction false} DecodeEncode(text: string)
    ensures Chars(EncodeAll(text)) == text && ValidUpTo(EncodeAll(text)) == |EncodeAll(text)|
  {
    hide Encode, FrontChar;
    if text != [] {
      var c, rest := text[0], EncodeAll(text[1..]);
      EncodeFront(c, rest);
      DecodeEncode(text[1..]);
      assert (Encode(c) + rest)[Width(c)..] == rest;
    }
  }

  /** The valid prefix is the encoding of its characters. */
  lemma {:induction false} ValidPrefixIsEncoded(s: seq<byte>)
    ensures s[..ValidUpTo(s)] == EncodeAll(Chars(s))
    decreases |s|
  {
    hide Encode, FrontChar, FrontWidth;
    var w := FrontWidth(s);
    if w > 0 {
      FrontIsEncoded(s);
      ValidPrefixIsEncoded(s[w..]);
      assert s[..ValidUpTo(s)] == s[..w] + s[w..][..ValidUpTo(s[w..])];
      assert ([FrontChar(s)] + Chars(s[w..]))[1..] == Chars(s[w..]);
    }
  }

  /** A complete front character does not depend on what follows it. */
  lemma FrontLocal(s: seq<byte>, t: seq<byte>)
    requires FrontWidth(s) > 0
    ensures FrontWidth(s + t) == FrontWidth(s) && FrontChar(s + t) == FrontChar(s)
  {
    assert forall i :: 0 <= i < |s| ==> (s + t)[i] == s[i];
  }

  /**
    More bytes: the valid prefix and its characters only grow, and the growth is what
    decoding the unfinished rest together with the new bytes gives.
    */
  lemma {:induction false} DecodeMore(s: seq<byte>, t: seq<byte>)
    ensures var e := ValidUpTo(s);
            && Chars(s + t) == Chars(s) + Chars(s[e..] + t)
            && ValidUpTo(s + t) == e + ValidUpTo(s[e..] + t)
    decreases |s|
  {
    DecodeUnfold(s);
    hide FrontChar, FrontWidth, Chars, ValidUpTo;
    var w := FrontWidth(s);
    if w == 0 {
      assert s[0..] == s;
    } else {
      FrontLocal(s, t);
      DecodeUnfold(s + t);
      DecodeMore(s[w..], t);
      assert (s + t)[w..] == s[w..] + t;
      var e := ValidUpTo(s[w..]);
      assert s[w..][e..] == s[w + e..];
      assert [FrontChar(s)] + (Chars(s[w..]) + Chars(s[w + e..] + t)) == [FrontChar(s)] + Chars(s[w..]) + Chars(s[w + e..] + t);
    }
  }

  lemma DecodeUnfold(s: seq<byte>)
    ensures var w := FrontWidth(s);
            if w == 0 then Chars(s) == [] && ValidUpTo(s) == 0
            else Chars(s) == [FrontChar(s)] + Chars(s[w..]) && ValidUpTo(s) == w + ValidUpTo(s[w..])
  {
    hide FrontChar, FrontWidth;
  }

  /** No longer prefix of `s` is the encoding of any text. */
  lemma LongestValidPrefix(s: seq<byte>, text: string)
    requires EncodeAll(text) <= s
    ensures |EncodeAll(text)| <= ValidUpTo(s) && text <= Chars(s)
  {
    hide FrontWidth, Chars, ValidUpTo;
    var p := EncodeAll(text);
    DecodeEncode(text);
    DecodeMore(p, s[|p|..]);
    assert p + s[|p|..] == s;
  }

  lemma {:induction false} ByteLenConcat(a: string, b: string)
    ensures ByteLen(a + b) == ByteLen(a) + ByteLen(b)
  {
    if b == [] {
      assert a + b == a;
    } else {
      var n := |b| - 1;
      assert (a + b)[..|a + b| - 1] == a + b[..n];
      ByteLenConcat(a, b[..n]);
    }
  }
}
