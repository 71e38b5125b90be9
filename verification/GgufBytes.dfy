/** Little-endian integers, strings and metadata values: reading them from a file and writing them. */
module GgufBytes {
  import opened Wrappers
  import opened Utf8

  const U64_MAX: nat := 0xFFFF_FFFF_FFFF_FFFF
  const MAX_STRING: nat := 1_048_576
  const MAX_ARRAY_ELEMENTS: nat := 1_000_000
  const MAX_ARRAY_DEPTH: nat := 16

  /** A value and the position after it. */
  datatype Read<+T> = Read(value: T, next: nat)

  // ---------------------------------------------------------------------------
  // Integers
  // ---------------------------------------------------------------------------

  function FromLE(s: seq<byte>): nat {
    if s == [] then 0 else s[0] + 256 * FromLE(s[1..])
  }

  function ToLE(v: nat, n: nat): (s: seq<byte>)
    ensures |s| == n
  {
    if n == 0 then [] else [v % 256] + ToLE(v / 256, n - 1)
  }

  function Limit(n: nat): nat {
    if n == 0 then 1 else 256 * Limit(n - 1)
  }

  lemma {:induction false} IntRoundTrip(v: nat, n: nat)
    requires v < Limit(n)
    ensures FromLE(ToLE(v, n)) == v
  {
    if n > 0 {
      IntRoundTrip(v / 256, n - 1);
      assert ToLE(v, n)[1..] == ToLE(v / 256, n - 1);
    }
  }

  lemma {:induction false} BelowLimit(s: seq<byte>)
    ensures FromLE(s) < Limit(|s|)
  {
    if s != [] { BelowLimit(s[1..]); }
  }

  lemma Limits()
    ensures Limit(1) == 256 && Limit(2) == 0x1_0000 && Limit(4) == 0x1_0000_0000 && Limit(8) == U64_MAX + 1
  {
    assert Limit(3) == 0x100_0000 && Limit(5) == 0x100_0000_0000 && Limit(6) == 0x1_0000_0000_0000;
    assert Limit(7) == 0x100_0000_0000_0000;
  }

  function ReadInt(data: seq<byte>, pos: nat, n: nat): (r: Option<Read<nat>>)
    ensures r.Some? ==> r.value.next == pos + n <= |data|
  {
    if pos + n <= |data| then Some(Read(FromLE(data[pos..pos + n]), pos + n)) else None
  }

  // ---------------------------------------------------------------------------
  // Strings
  // ---------------------------------------------------------------------------

  predicate IsText(s: seq<byte>) {
    |s| <= MAX_STRING && ValidUpTo(s) == |s|
  }

  /** A length, then that many bytes of UTF-8. */
  function ReadString(data: seq<byte>, pos: nat): (r: Option<Read<seq<byte>>>)
    ensures r.Some? ==> IsText(r.value.value) && pos + 8 <= r.value.next == pos + 8 + |r.value.value| <= |data|
  {
    var len :- ReadInt(data, pos, 8);
    if len.value > MAX_STRING then None
    else if len.next + len.value > |data| then None
    else
      var body := data[len.next..len.next + len.value];
      if ValidUpTo(body) == |body| then Some(Read(body, len.next + len.value)) else None
  }

  function WriteString(s: seq<byte>): seq<byte> {
    ToLE(|s|, 8) + s
  }

  // ---------------------------------------------------------------------------
  // Values
  // ---------------------------------------------------------------------------

  /** Metadata value types by their tags. */
  const UINT8: nat := 0
  const INT8: nat := 1
  const UINT16: nat := 2
  const INT16: nat := 3
  const UINT32: nat := 4
  const INT32: nat := 5
  const FLOAT32: nat := 6
  const BOOL: nat := 7
  const STRING: nat := 8
  const ARRAY: nat := 9
  const UINT64: nat := 10
  const INT64: nat := 11
  const FLOAT64: nat := 12

  /** A number is kept as its tag and its bits. */
  datatype Value = Number(tag: nat, bits: nat) | Boolean(on: bool) | Str(text: seq<byte>) | Arr(elems: seq<Value>)

  /** Bytes of a number; 0 for what is not one. */
  function NumberBytes(tag: nat): (n: nat)
    ensures n == 0 || n == 1 || n == 2 || n == 4 || n == 8
  {
    if tag == UINT8 || tag == INT8 then 1
    else if tag == UINT16 || tag == INT16 then 2
    else if tag == UINT32 || tag == INT32 || tag == FLOAT32 then 4
    else if tag == UINT64 || tag == INT64 || tag == FLOAT64 then 8
    else 0
  }

  /** The fewest bytes an element can take; none for an unknown tag. */
  function ElementBytes(tag: nat): Option<nat> {
    if NumberBytes(tag) > 0 then Some(NumberBytes(tag))
    else if tag == BOOL then Some(1)
    else if tag == STRING then Some(8)
    else if tag == ARRAY then Some(12)
    else None
  }

  /** An array's header is believable: not too deep, not too long, and able to fit. */
  predicate ArrayFits(data: seq<byte>, pos: nat, tag: nat, count: nat, depth: nat) {
    && depth <= MAX_ARRAY_DEPTH
    && count <= MAX_ARRAY_ELEMENTS
    && ElementBytes(tag).Some?
    && count * ElementBytes(tag).value <= (if pos <= |data| then |data| - pos else 0)
  }

  /** A value of a known type, at nesting depth `depth`. */
  function ReadTyped(data: seq<byte>, pos: nat, tag: nat, depth: nat): (r: Option<Read<Value>>)
    requires depth <= MAX_ARRAY_DEPTH
    ensures r.Some? ==> ElementBytes(tag).Some? && pos + ElementBytes(tag).value <= r.value.next <= |data|
    decreases MAX_ARRAY_DEPTH - depth, 0, 0
  {
    if NumberBytes(tag) > 0 then
      var n :- ReadInt(data, pos, NumberBytes(tag));
      Some(Read(Number(tag, n.value), n.next))
    else if tag == BOOL then
      var b :- ReadInt(data, pos, 1);
      Some(Read(Boolean(b.value != 0), b.next))
    else if tag == STRING then
      var s :- ReadString(data, pos);
      Some(Read(Str(s.value), s.next))
    else if tag == ARRAY then
      var elem :- ReadInt(data, pos, 4);
      var count :- ReadInt(data, elem.next, 8);
      if !ArrayFits(data, count.next, elem.value, count.value, depth + 1) then None else
      var elems :- ReadElems(data, count.next, elem.value, count.value, depth + 1);
      Some(Read(Arr(elems.value), elems.next))
    else None
  }

  /** `n` elements, one after another. */
  function ReadElems(data: seq<byte>, pos: nat, tag: nat, n: nat, depth: nat): (r: Option<Read<seq<Value>>>)
    requires depth <= MAX_ARRAY_DEPTH && ElementBytes(tag).Some? && pos <= |data|
    ensures r.Some? ==> |r.value.value| == n && pos + n * ElementBytes(tag).value <= r.value.next <= |data|
    decreases MAX_ARRAY_DEPTH - depth, 1, n
  {
    if n == 0 then Some(Read([], pos)) else
    var init :- ReadElems(data, pos, tag, n - 1, depth);
    var last :- ReadTyped(data, init.next, tag, depth);
    assert n * ElementBytes(tag).value == (n - 1) * ElementBytes(tag).value + ElementBytes(tag).value;
    Some(Read(init.value + [last.value], last.next))
  }

  /** A tag, then a value of that type. */
  function ReadValue(data: seq<byte>, pos: nat): (r: Option<Read<Value>>)
    ensures r.Some? ==> pos + 5 <= r.value.next <= |data|
  {
    var tag :- ReadInt(data, pos, 4);
    ReadTyped(data, tag.next, tag.value, 0)
  }

  // ---------------------------------------------------------------------------
  // The readers as loops
  // ---------------------------------------------------------------------------

  /** The cursor's reader of a typed value; arrays push their elements one by one. */
  method ReadTypedValue(data: seq<byte>, pos: nat, tag: nat, depth: nat) returns (r: Option<Read<Value>>)
    requires depth <= MAX_ARRAY_DEPTH
    ensures r == ReadTyped(data, pos, tag, depth)
    decreases MAX_ARRAY_DEPTH - depth, 1
  {
    if tag != ARRAY {
      return ReadTyped(data, pos, tag, depth);
    }
    var elem := ReadInt(data, pos, 4);
    if elem.None? { return None; }
    var count := ReadInt(data, elem.value.next, 8);
    if count.None? { return None; }
    if !ArrayFits(data, count.value.next, elem.value.value, count.value.value, depth + 1) { return None; }
    var elems := ReadElements(data, count.value.next, elem.value.value, count.value.value, depth + 1);
    if elems.None? { return None; }
    return Some(Read(Arr(elems.value.value), elems.value.next));
  }

  lemma {:induction false} ElemsStop(data: seq<byte>, pos: nat, tag: nat, n: nat, m: nat, depth: nat)
    requires depth <= MAX_ARRAY_DEPTH && ElementBytes(tag).Some? && pos <= |data| && n <= m
    requires ReadElems(data, pos, tag, n, depth).None?
    ensures ReadElems(data, pos, tag, m, depth).None?
  {
    if n < m { ElemsStop(data, pos, tag, n, m - 1, depth); }
  }

  method ReadElements(data: seq<byte>, pos: nat, tag: nat, count: nat, depth: nat) returns (r: Option<Read<seq<Value>>>)
    requires depth <= MAX_ARRAY_DEPTH && ElementBytes(tag).Some? && pos <= |data|
    ensures r == ReadElems(data, pos, tag, count, depth)
    decreases MAX_ARRAY_DEPTH - depth, 2
  {
    hide ReadTyped;
    var elems: seq<Value> := [];
    var at: nat := pos;
    var i := 0;
    while i < count
      invariant 0 <= i <= count && at <= |data|
      invariant ReadElems(data, pos, tag, i, depth) == Some(Read(elems, at))
    {
      var e := ReadTypedValue(data, at, tag, depth);
      if e.None? {
        assert ReadElems(data, pos, tag, i + 1, depth).None?;
        ElemsStop(data, pos, tag, i + 1, count, depth);
        return None;
      }
      elems, at := elems + [e.value.value], e.value.next;
      i := i + 1;
    }
    r := Some(Read(elems, at));
  }

  // ---------------------------------------------------------------------------
  // Reading depends only on the bytes read
  // ---------------------------------------------------------------------------

  /** The two files agree from `pos` to `end`. */
  predicate Agree(data: seq<byte>, other: seq<byte>, pos: nat, end: nat) {
    pos <= end <= |data| && end <= |other| && data[pos..end] == other[pos..end]
  }

  lemma AgreePart(data: seq<byte>, other: seq<byte>, pos: nat, end: nat, from: nat, to: nat)
    requires Agree(data, other, pos, end) && pos <= from <= to <= end
    ensures Agree(data, other, from, to)
  {
    forall k | 0 <= k < to - from ensures data[from..to][k] == other[from..to][k] {
      assert data[pos..end][from - pos + k] == other[pos..end][from - pos + k];
    }
  }

  lemma IntLocal(data: seq<byte>, other: seq<byte>, pos: nat, n: nat)
    requires ReadInt(data, pos, n).Some? && Agree(data, other, pos, pos + n)
    ensures ReadInt(other, pos, n) == ReadInt(data, pos, n)
  {
  }

  lemma StringLocal(data: seq<byte>, other: seq<byte>, pos: nat)
    requires ReadString(data, pos).Some? && Agree(data, other, pos, ReadString(data, pos).value.next)
    ensures ReadString(other, pos) == ReadString(data, pos)
  {
    hide FromLE;
    var end := ReadString(data, pos).value.next;
    AgreePart(data, other, pos, end, pos, pos + 8);
    AgreePart(data, other, pos, end, pos + 8, end);
    IntLocal(data, other, pos, 8);
  }

  /** A value is read the same from any file with the same bytes there, however short the rest. */
  lemma {:induction false} TypedLocal(data: seq<byte>, other: seq<byte>, pos: nat, tag: nat, depth: nat)
    requires depth <= MAX_ARRAY_DEPTH && ReadTyped(data, pos, tag, depth).Some?
    requires Agree(data, other, pos, ReadTyped(data, pos, tag, depth).value.next)
    ensures ReadTyped(other, pos, tag, depth) == ReadTyped(data, pos, tag, depth)
    decreases MAX_ARRAY_DEPTH - depth, 0, 0
  {
    hide FromLE, ReadElems, ReadString;
    var end := ReadTyped(data, pos, tag, depth).value.next;
    if NumberBytes(tag) > 0 {
      IntLocal(data, other, pos, NumberBytes(tag));
    } else if tag == BOOL {
      IntLocal(data, other, pos, 1);
    } else if tag == STRING {
      StringLocal(data, other, pos);
    } else {
      AgreePart(data, other, pos, end, pos, pos + 4);
      IntLocal(data, other, pos, 4);
      AgreePart(data, other, pos, end, pos + 4, pos + 12);
      IntLocal(data, other, pos + 4, 8);
      AgreePart(data, other, pos, end, pos + 12, end);
      var elem, count := ReadInt(data, pos, 4).value.value, ReadInt(data, pos + 4, 8).value.value;
      ElemsLocal(data, other, pos + 12, elem, count, depth + 1);
    }
  }

  lemma {:induction false} ElemsLocal(data: seq<byte>, other: seq<byte>, pos: nat, tag: nat, n: nat, depth: nat)
    requires depth <= MAX_ARRAY_DEPTH && ElementBytes(tag).Some? && pos <= |data|
    requires ReadElems(data, pos, tag, n, depth).Some?
    requires Agree(data, other, pos, ReadElems(data, pos, tag, n, depth).value.next)
    ensures ReadElems(other, pos, tag, n, depth) == ReadElems(data, pos, tag, n, depth)
    decreases MAX_ARRAY_DEPTH - depth, 1, n
  {
    hide ReadTyped;
    if n > 0 {
      var init := ReadElems(data, pos, tag, n - 1, depth).value;
      var end := ReadElems(data, pos, tag, n, depth).value.next;
      AgreePart(data, other, pos, end, pos, init.next);
      ElemsLocal(data, other, pos, tag, n - 1, depth);
      AgreePart(data, other, pos, end, init.next, end);
      TypedLocal(data, other, init.next, tag, depth);
    }
  }

  lemma ValueLocal(data: seq<byte>, other: seq<byte>, pos: nat)
    requires ReadValue(data, pos).Some? && Agree(data, other, pos, ReadValue(data, pos).value.next)
    ensures ReadValue(other, pos) == ReadValue(data, pos)
  {
    hide FromLE, ReadTyped;
    var end := ReadValue(data, pos).value.next;
    AgreePart(data, other, pos, end, pos, pos + 4);
    IntLocal(data, other, pos, 4);
    AgreePart(data, other, pos, end, pos + 4, end);
    TypedLocal(data, other, pos + 4, ReadInt(data, pos, 4).value.value, 0);
  }

  // ---------------------------------------------------------------------------
  // What is written is read
  // ---------------------------------------------------------------------------

  /** `s` stands in the file at `pos`. */
  predicate StandsAt(data: seq<byte>, pos: nat, s: seq<byte>) {
    pos + |s| <= |data| && data[pos..pos + |s|] == s
  }

  lemma StandsPart(data: seq<byte>, pos: nat, a: seq<byte>, b: seq<byte>)
    requires StandsAt(data, pos, a + b)
    ensures StandsAt(data, pos, a) && StandsAt(data, pos + |a|, b)
  {
    var whole := data[pos..pos + |a + b|];
    assert data[pos..pos + |a|] == whole[..|a|] == a;
    assert data[pos + |a|..pos + |a| + |b|] == whole[|a|..] == b;
  }

  lemma IntWritten(data: seq<byte>, pos: nat, v: nat, n: nat)
    requires v < Limit(n) && StandsAt(data, pos, ToLE(v, n))
    ensures ReadInt(data, pos, n) == Some(Read(v, pos + n))
  {
    IntRoundTrip(v, n);
  }

  lemma StringWritten(data: seq<byte>, pos: nat, s: seq<byte>)
    requires IsText(s) && StandsAt(data, pos, WriteString(s))
    ensures ReadString(data, pos) == Some(Read(s, pos + 8 + |s|))
  {
    hide FromLE, ToLE, ValidUpTo;
    Limits();
    StandsPart(data, pos, ToLE(|s|, 8), s);
    IntWritten(data, pos, |s|, 8);
  }
}
