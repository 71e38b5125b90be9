/**
  Edit distance between a mistyped slash command and a known one: the two-row table
  against its recursive definition, and that definition against edit scripts.
  */
module EditDistance {

  function Min(a: nat, b: nat): nat {
    if a <= b then a else b
  }

  // ---------------------------------------------------------------------------
  // The recursive distance
  // ---------------------------------------------------------------------------

  function Substitution(x: char, y: char): nat {
    if x == y then 0 else 1
  }

  function Distance(a: string, b: string): nat
    decreases |a| + |b|
  {
    if a == [] then |b|
    else if b == [] then |a|
    else
      var a' := a[..|a| - 1];
      var b' := b[..|b| - 1];
      Min(Min(Distance(a', b) + 1, Distance(a, b') + 1),
          Distance(a', b') + Substitution(a[|a| - 1], b[|b| - 1]))
  }

  /** Row `i` of the table: the distances of `a[..i]` to every prefix of `b`. */
  ghost predicate IsRow(row: seq<nat>, a: string, b: string, upTo: nat)
    requires upTo <= |row| && |row| == |b| + 1
  {
    forall j :: 0 <= j < upTo ==> row[j] == Distance(a, b[..j])
  }

  /** One cell from its three neighbours. */
  lemma Cell(a: string, b: string, i: nat, j: nat)
    requires 1 <= i <= |a| && 1 <= j <= |b|
    ensures Distance(a[..i], b[..j])
         == Min(Min(Distance(a[..i - 1], b[..j]) + 1, Distance(a[..i], b[..j - 1]) + 1),
                Distance(a[..i - 1], b[..j - 1]) + Substitution(a[i - 1], b[j - 1]))
  {
    assert a[..i][..i - 1] == a[..i - 1];
    assert b[..j][..j - 1] == b[..j - 1];
  }

  lemma FirstCell(a: string, b: string)
    ensures Distance(a, b[..0]) == |a|
  {
  }

  method FillRow(a: string, b: string, i: nat, prev: array<nat>, cur: array<nat>)
    requires 1 <= i <= |a| && b != []
    requires prev != cur && prev.Length == cur.Length == |b| + 1
    requires IsRow(prev[..], a[..i - 1], b, |b| + 1)
    modifies cur
    ensures IsRow(cur[..], a[..i], b, |b| + 1)
  {
    hide Distance;
    cur[0] := i;
    FirstCell(a[..i], b);
    assert cur[..][0] == i;
    var j := 1;
    while j <= |b|
      invariant 1 <= j <= |b| + 1
      invariant IsRow(cur[..], a[..i], b, j)
      invariant prev[..] == old(prev[..])
    {
      Cell(a, b, i, j);
      ghost var before := cur[..];
      assert prev[j] == prev[..][j] && prev[j - 1] == prev[..][j - 1] && cur[j - 1] == before[j - 1];
      var cost := if a[i - 1] == b[j - 1] then 0 else 1;
      cur[j] := Min(Min(prev[j] + 1, cur[j - 1] + 1), prev[j - 1] + cost);
      assert cur[..] == before[j := cur[j]];
      j := j + 1;
    }
  }

  method Levenshtein(a: string, b: string) returns (d: nat)
    ensures d == Distance(a, b)
  {
    if a == [] { return |b|; }
    if b == [] { return |a|; }
    var prev := new nat[|b| + 1](j => j);
    var cur := new nat[|b| + 1](j => 0);
    var i := 1;
    while i <= |a|
      invariant 1 <= i <= |a| + 1
      invariant prev != cur && prev.Length == cur.Length == |b| + 1
      invariant fresh(prev) && fresh(cur)
      invariant IsRow(prev[..], a[..i - 1], b, |b| + 1)
    {
      FillRow(a, b, i, prev, cur);
      prev, cur := cur, prev;
      i := i + 1;
    }
    assert a[..|a|] == a && b[..|b|] == b;
    assert prev[..][|b|] == prev[|b|];
    d := prev[|b|];
  }

  // ---------------------------------------------------------------------------
  // Edit scripts
  // ---------------------------------------------------------------------------

  /** A script reads its source from the end, one edit or kept character at a time. */
  datatype Edit = Keep | Replace(with: char) | Insert(added: char) | Delete

  function Cost(script: seq<Edit>): nat {
    if script == [] then 0 else
    Cost(script[..|script| - 1]) + (if script[|script| - 1].Keep? then 0 else 1)
  }

  /** The script fits the source: it consumes exactly its characters. */
  function Consumed(script: seq<Edit>): nat {
    if script == [] then 0 else
    Consumed(script[..|script| - 1]) + (if script[|script| - 1].Insert? then 0 else 1)
  }

  /** The text a fitting script produces. */
  function Apply(script: seq<Edit>, a: string): string
    requires Consumed(script) == |a|
  {
    if script == [] then "" else
    var rest := script[..|script| - 1];
    match script[|script| - 1]
    case Keep => Apply(rest, a[..|a| - 1]) + [a[|a| - 1]]
    case Replace(c) => Apply(rest, a[..|a| - 1]) + [c]
    case Insert(c) => Apply(rest, a) + [c]
    case Delete => Apply(rest, a[..|a| - 1])
  }

  ghost predicate Edits(script: seq<Edit>, a: string, b: string) {
    Consumed(script) == |a| && Apply(script, a) == b
  }

  /** No script turns `a` into `b` more cheaply than the distance. */
  lemma {:induction false} DistanceIsLowerBound(script: seq<Edit>, a: string, b: string)
    requires Edits(script, a, b)
    ensures Distance(a, b) <= Cost(script)
    decreases |script|
  {
    if script != [] {
      var rest := script[..|script| - 1];
      match script[|script| - 1]
      case Keep =>
        DistanceIsLowerBound(rest, a[..|a| - 1], b[..|b| - 1]);
        assert Apply(rest, a[..|a| - 1]) == b[..|b| - 1];
      case Replace(c) =>
        DistanceIsLowerBound(rest, a[..|a| - 1], b[..|b| - 1]);
        assert Apply(rest, a[..|a| - 1]) == b[..|b| - 1];
      case Insert(c) =>
        assert Apply(rest, a) == b[..|b| - 1];
        DistanceIsLowerBound(rest, a, b[..|b| - 1]);
      case Delete =>
        DistanceIsLowerBound(rest, a[..|a| - 1], b);
    }
  }

  lemma Snoc(script: seq<Edit>, e: Edit)
    ensures Cost(script + [e]) == Cost(script) + (if e.Keep? then 0 else 1)
    ensures Consumed(script + [e]) == Consumed(script) + (if e.Insert? then 0 else 1)
  {
    assert (script + [e])[..|script + [e]| - 1] == script;
  }

  /** A script for the shorter texts extends to the longer ones, each way the last characters can be edited. */
  lemma Extended(script: seq<Edit>, e: Edit, a: string, b: string, a': string, b': string)
    requires Edits(script, a', b')
    requires (a' == a || (a != [] && a' == a[..|a| - 1])) && (b' == b || (b != [] && b' == b[..|b| - 1]))
    requires match e
      case Keep => a' != a && b' != b && a[|a| - 1] == b[|b| - 1]
      case Replace(c) => a' != a && b' != b && b[|b| - 1] == c
      case Insert(c) => a' == a && b' != b && b[|b| - 1] == c
      case Delete => a' != a && b' == b
    ensures Edits(script + [e], a, b) && Cost(script + [e]) == Cost(script) + (if e.Keep? then 0 else 1)
  {
    Snoc(script, e);
    assert (script + [e])[..|script|] == script;
    if b' != b { assert b == b' + [b[|b| - 1]]; }
  }

  /** Some script attains the distance. */
  lemma {:induction false} DistanceIsAttained(a: string, b: string) returns (script: seq<Edit>)
    ensures Edits(script, a, b) && Cost(script) == Distance(a, b)
    decreases |a| + |b|
  {
    hide Edits, Cost;
    if a == [] && b == [] {
      script := [];
      EmptyScript();
    } else if a == [] || (b != [] && Distance(a, b) == Distance(a, b[..|b| - 1]) + 1) {
      script := DistanceIsAttained(a, b[..|b| - 1]);
      Extended(script, Insert(b[|b| - 1]), a, b, a, b[..|b| - 1]);
      script := script + [Insert(b[|b| - 1])];
    } else if b == [] || Distance(a, b) == Distance(a[..|a| - 1], b) + 1 {
      script := DistanceIsAttained(a[..|a| - 1], b);
      Extended(script, Delete, a, b, a[..|a| - 1], b);
      script := script + [Delete];
    } else {
      var last := if a[|a| - 1] == b[|b| - 1] then Keep else Replace(b[|b| - 1]);
      script := DistanceIsAttained(a[..|a| - 1], b[..|b| - 1]);
      Extended(script, last, a, b, a[..|a| - 1], b[..|b| - 1]);
      script := script + [last];
    }
  }

  lemma EmptyScript()
    ensures Edits([], "", "") && Cost([]) == 0
  {
  }

  /** The distance is the least cost of a script. */
  lemma DistanceIsMinimum(a: string, b: string)
    ensures exists script :: Edits(script, a, b) && Cost(script) == Distance(a, b)
    ensures forall script :: Edits(script, a, b) ==> Distance(a, b) <= Cost(script)
  {
    var script := DistanceIsAttained(a, b);
    forall other | Edits(other, a, b) ensures Distance(a, b) <= Cost(other) {
      DistanceIsLowerBound(other, a, b);
    }
  }

  // ---------------------------------------------------------------------------
  // A metric
  // ---------------------------------------------------------------------------

  lemma {:induction false} Symmetric(a: string, b: string)
    ensures Distance(a, b) == Distance(b, a)
    decreases |a| + |b|
  {
    if a != [] && b != [] {
      Symmetric(a[..|a| - 1], b);
      Symmetric(a, b[..|b| - 1]);
      Symmetric(a[..|a| - 1], b[..|b| - 1]);
    }
  }

  lemma {:induction false} ZeroIffEqual(a: string, b: string)
    ensures Distance(a, b) == 0 <==> a == b
    decreases |a|
  {
    if a != [] && b != [] {
      ZeroIffEqual(a[..|a| - 1], b[..|b| - 1]);
      assert a == a[..|a| - 1] + [a[|a| - 1]] && b == b[..|b| - 1] + [b[|b| - 1]];
    }
  }

  /** Running one script after another: its cost is no more than the two together. */
  lemma {:induction false} Compose(first: seq<Edit>, second: seq<Edit>, a: string, b: string, c: string)
    returns (script: seq<Edit>)
    requires Edits(first, a, b) && Edits(second, b, c)
    ensures Edits(script, a, c) && Cost(script) <= Cost(first) + Cost(second)
    decreases |first| + |second|
  {
    if second != [] && second[|second| - 1].Insert? {
      var e := second[|second| - 1];
      script := Compose(first, second[..|second| - 1], a, b, c[..|c| - 1]);
      Extended(script, e, a, c, a, c[..|c| - 1]);
      script := script + [e];
    } else if first != [] && first[|first| - 1].Delete? {
      script := Compose(first[..|first| - 1], second, a[..|a| - 1], b, c);
      Extended(script, Delete, a, c, a[..|a| - 1], c);
      script := script + [Delete];
    } else if first == [] {
      script := [];
    } else {
      script := ComposeMiddle(first, second, a, b, c);
    }
  }

  /** The first script produces the character the second then keeps, replaces or deletes. */
  lemma {:induction false} ComposeMiddle(first: seq<Edit>, second: seq<Edit>, a: string, b: string, c: string)
    returns (script: seq<Edit>)
    requires Edits(first, a, b) && Edits(second, b, c)
    requires first != [] && !first[|first| - 1].Delete?
    requires second != [] ==> !second[|second| - 1].Insert?
    ensures Edits(script, a, c) && Cost(script) <= Cost(first) + Cost(second)
    decreases |first| + |second|, 0
  {
    var made, used := first[|first| - 1], second[|second| - 1];
    var a' := if made.Insert? then a else a[..|a| - 1];
    var c' := if used.Delete? then c else c[..|c| - 1];
    script := Compose(first[..|first| - 1], second[..|second| - 1], a', b[..|b| - 1], c');
    if made.Insert? && used.Delete? {
      return;
    }
    var e :=
      if used.Delete? then Delete
      else if made.Insert? then Insert(c[|c| - 1])
      else if a[|a| - 1] == c[|c| - 1] then Keep
      else Replace(c[|c| - 1]);
    Extended(script, e, a, c, a', c');
    script := script + [e];
  }

  lemma TriangleInequality(a: string, b: string, c: string)
    ensures Distance(a, c) <= Distance(a, b) + Distance(b, c)
  {
    var first := DistanceIsAttained(a, b);
    var second := DistanceIsAttained(b, c);
    var script := Compose(first, second, a, b, c);
    DistanceIsLowerBound(script, a, c);
  }

  // ---------------------------------------------------------------------------
  // One edit
  // ---------------------------------------------------------------------------

  /** The texts differ by one character put in, taken out, or replaced by another. */
  ghost predicate OneEdit(a: string, b: string) {
    exists u: string, v: string, x: string, y: string {:trigger Parts(a, u, x, v), Parts(b, u, y, v)} ::
      Parts(a, u, x, v) && Parts(b, u, y, v) && |x| <= 1 && |y| <= 1 && x != y
  }

  predicate Parts(a: string, u: string, x: string, v: string) {
    a == u + x + v
  }

  lemma PartsSnoc(a: string, u: string, x: string, v: string)
    requires a != [] && Parts(a[..|a| - 1], u, x, v)
    ensures Parts(a, u, x, v + [a[|a| - 1]])
  {
    assert a == a[..|a| - 1] + [a[|a| - 1]];
  }

  lemma SameLast(a: string, b: string)
    requires a != [] && b != [] && a[|a| - 1] == b[|b| - 1] && OneEdit(a[..|a| - 1], b[..|b| - 1])
    ensures OneEdit(a, b)
  {
    var a', b' := a[..|a| - 1], b[..|b| - 1];
    var u, v, x, y :| Parts(a', u, x, v) && Parts(b', u, y, v) && |x| <= 1 && |y| <= 1 && x != y;
    PartsSnoc(a, u, x, v);
    PartsSnoc(b, u, y, v);
  }

  lemma LastPart(a: string)
    requires a != []
    ensures Parts(a, a[..|a| - 1], [a[|a| - 1]], []) && Parts(a, a, [], [])
  {
  }

  /** Texts at distance 1 are one edit apart. */
  lemma {:induction false} OneIsOneEdit(a: string, b: string)
    requires Distance(a, b) == 1
    ensures OneEdit(a, b)
    decreases |a|
  {
    if a == [] {
      LastPart(b);
      assert Parts(a, b[..|b| - 1], [], []);
    } else if b == [] {
      LastPart(a);
      assert Parts(b, a[..|a| - 1], [], []);
    } else {
      var a', b' := a[..|a| - 1], b[..|b| - 1];
      LastPart(a);
      LastPart(b);
      ZeroIffEqual(a', b);
      ZeroIffEqual(a, b');
      ZeroIffEqual(a', b');
      if a' == b {
        assert Parts(b, a', [], []);
      } else if a == b' {
        assert Parts(a, b', [], []);
      } else if a' != b' {
        OneIsOneEdit(a', b');
        SameLast(a, b);
      } else {
        assert Distance(a', b') == 0 && a[|a| - 1] != b[|b| - 1];
      }
    }
  }

  /** A common ending adds nothing to the distance. */
  lemma {:induction false} CommonEnd(a: string, b: string, v: string)
    ensures Distance(a + v, b + v) <= Distance(a, b)
  {
    hide Distance;
    if v == [] {
      assert a + v == a && b + v == b;
    } else {
      var v', c := v[..|v| - 1], v[|v| - 1];
      CommonEnd(a, b, v');
      CommonLast(a + v', b + v', c);
      assert a + v == a + v' + [c] && b + v == b + v' + [c];
    }
  }

  lemma CommonLast(a: string, b: string, c: char)
    ensures Distance(a + [c], b + [c]) <= Distance(a, b)
  {
    assert (a + [c])[..|a|] == a && (b + [c])[..|b|] == b;
  }

  lemma SelfDistance(u: string)
    ensures Distance(u, u) == 0
  {
    ZeroIffEqual(u, u);
  }

  lemma ChangedEnd(u: string, x: string, y: string)
    requires |x| <= 1 && |y| <= 1
    ensures Distance(u + x, u + y) <= 1
  {
    hide Distance;
    SelfDistance(u);
    assert x == [] ==> u + x == u;
    assert y == [] ==> u + y == u;
    if x != [] { assert (u + x)[..|u + x| - 1] == u; }
    if y != [] { assert (u + y)[..|u + y| - 1] == u; }
    LastEdit(u + x, u + y);
  }

  /** Taking the last character off either text, or off both, saves at most one edit. */
  lemma LastEdit(a: string, b: string)
    ensures a != [] ==> Distance(a, b) <= Distance(a[..|a| - 1], b) + 1
    ensures b != [] ==> Distance(a, b) <= Distance(a, b[..|b| - 1]) + 1
    ensures a != [] && b != [] ==> Distance(a, b) <= Distance(a[..|a| - 1], b[..|b| - 1]) + 1
  {
  }

  /** Distance 1 is one edit exactly; 0 is none. */
  lemma DistanceOne(a: string, b: string)
    ensures Distance(a, b) == 1 <==> OneEdit(a, b)
  {
    if Distance(a, b) == 1 { OneIsOneEdit(a, b); }
    if OneEdit(a, b) {
      var u, v, x, y :| Parts(a, u, x, v) && Parts(b, u, y, v) && |x| <= 1 && |y| <= 1 && x != y;
      ChangedEnd(u, x, y);
      CommonEnd(u + x, u + y, v);
      ZeroIffEqual(a, b);
      DifferentMiddles(u, x, y, v);
    }
  }

  lemma DifferentMiddles(u: string, x: string, y: string, v: string)
    requires |x| <= 1 && |y| <= 1 && x != y
    ensures u + x + v != u + y + v
  {
    var a, b := u + x + v, u + y + v;
    if |x| == |y| == 1 {
      assert a[|u|] == x[0] && b[|u|] == y[0];
    } else {
      assert |a| != |b|;
    }
  }
}
