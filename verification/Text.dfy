/**
  Text as the bytes of a Go string.  Whitespace is what unicode.IsSpace accepts,
  in its one-, two- and three-byte UTF-8 forms.
 */
module Text {
  /** Each char stands for one byte. */
  type Bytes = string

  predicate IsSpace1(a: char) { '\t' <= a <= '\r' || a == ' ' }

  predicate IsSpace2(a: char, b: char) { a == '\U{C2}' && (b == '\U{85}' || b == '\U{A0}') }

  predicate IsSpace3(a: char, b: char, c: char) {
    || (a == '\U{E1}' && b == '\U{9A}' && c == '\U{80}')
    || (a == '\U{E2}' && b == '\U{80}' && ('\U{80}' <= c <= '\U{8A}' || c == '\U{A8}' || c == '\U{A9}' || c == '\U{AF}'))
    || (a == '\U{E2}' && b == '\U{81}' && c == '\U{9F}')
    || (a == '\U{E3}' && b == '\U{80}' && c == '\U{80}')
  }

  /** Width of the whitespace character that begins s, or 0. */
  function SpaceWidth(s: Bytes): (w: nat)
    ensures w <= |s|
  {
    if |s| >= 1 && IsSpace1(s[0]) then 1
    else if |s| >= 2 && IsSpace2(s[0], s[1]) then 2
    else if |s| >= 3 && IsSpace3(s[0], s[1], s[2]) then 3
    else 0
  }

  /** Width of the whitespace character that ends s, or 0. */
  function LastSpaceWidth(s: Bytes): (w: nat)
    ensures w <= |s|
  {
    if |s| >= 1 && SpaceWidth(s[|s| - 1..]) == 1 then 1
    else if |s| >= 2 && SpaceWidth(s[|s| - 2..]) == 2 then 2
    else if |s| >= 3 && SpaceWidth(s[|s| - 3..]) == 3 then 3
    else 0
  }

  /** Length of the whitespace at the front of s. */
  function Leading(s: Bytes): (k: nat)
    ensures k <= |s|
  {
    if SpaceWidth(s) == 0 then 0 else SpaceWidth(s) + Leading(s[SpaceWidth(s)..])
  }

  function TrimLeft(s: Bytes): Bytes { s[Leading(s)..] }

  /** s without whitespace at either end. */
  function TrimSpace(s: Bytes): (t: Bytes)
    ensures |t| <= |s|
  {
    if SpaceWidth(s) > 0 then TrimSpace(s[SpaceWidth(s)..])
    else if LastSpaceWidth(s) > 0 then TrimSpace(s[..|s| - LastSpaceWidth(s)])
    else s
  }

  /** s is a run of whitespace characters and nothing else. */
  predicate AllSpace(s: Bytes) { Leading(s) == |s| }

  /** A whitespace character is seen the same whatever comes after it. */
  lemma WidthOfPrefix(s: Bytes, k: nat)
    requires SpaceWidth(s) <= k <= |s|
    ensures SpaceWidth(s[..k]) == SpaceWidth(s)
  {
  }

  lemma WidthOfWhole(s: Bytes, k: nat)
    requires k <= |s| && SpaceWidth(s[..k]) > 0
    ensures SpaceWidth(s) == SpaceWidth(s[..k])
  {
  }

  /** The first character of a run of whitespace is the first of whatever begins with the run. */
  lemma FirstOfConcat(a: Bytes, b: Bytes, w: nat, both: Bytes)
    requires a != [] && AllSpace(a) && w == SpaceWidth(a) && both == a + b
    ensures w > 0 && AllSpace(a[w..]) && SpaceWidth(both) == w && both[w..] == a[w..] + b
  {
    assert both[..|a|] == a;
    WidthOfWhole(both, |a|);
  }

  lemma {:induction false} LeadingOfConcat(a: Bytes, b: Bytes)
    requires AllSpace(a)
    ensures Leading(a + b) == |a| + Leading(b)
  {
    if a == [] {
      assert a + b == b;
    } else {
      var w, both := SpaceWidth(a), a + b;
      FirstOfConcat(a, b, w, both);
      LeadingOfConcat(a[w..], b);
    }
  }

  lemma AllSpaceConcat(a: Bytes, b: Bytes)
    requires AllSpace(a) && AllSpace(b)
    ensures AllSpace(a + b)
  {
    LeadingOfConcat(a, b);
  }

  lemma {:induction false} LeadingIsSpace(s: Bytes)
    ensures AllSpace(s[..Leading(s)]) && SpaceWidth(TrimLeft(s)) == 0
  {
    var w, k := SpaceWidth(s), Leading(s);
    if w > 0 {
      LeadingIsSpace(s[w..]);
      WidthOfPrefix(s, k);
      assert s[..k][w..] == s[w..][..k - w];
      assert s[w..][k - w..] == s[k..];
    }
  }

  lemma UnitIsSpace(u: Bytes)
    requires u != [] && SpaceWidth(u) == |u|
    ensures AllSpace(u)
  {
    assert u[|u|..] == [];
  }

  ghost predicate Framed(s: Bytes, left: Bytes, middle: Bytes, right: Bytes) {
    s == left + middle + right && AllSpace(left) && AllSpace(right)
  }

  lemma FrameLeft(s: Bytes, rest: Bytes, left: Bytes, middle: Bytes, right: Bytes) returns (left': Bytes)
    requires SpaceWidth(s) > 0 && rest == s[SpaceWidth(s)..] && Framed(rest, left, middle, right)
    ensures Framed(s, left', middle, right)
  {
    var unit := s[..SpaceWidth(s)];
    WidthOfPrefix(s, |unit|);
    UnitIsSpace(unit);
    AllSpaceConcat(unit, left);
    left' := unit + left;
    assert s == unit + rest;
    assert unit + (left + middle + right) == left' + middle + right;
  }

  lemma FrameRight(s: Bytes, rest: Bytes, left: Bytes, middle: Bytes, right: Bytes) returns (right': Bytes)
    requires LastSpaceWidth(s) > 0 && rest == s[..|s| - LastSpaceWidth(s)] && Framed(rest, left, middle, right)
    ensures Framed(s, left, middle, right')
  {
    var unit := s[|s| - LastSpaceWidth(s)..];
    UnitIsSpace(unit);
    AllSpaceConcat(right, unit);
    right' := right + unit;
    assert s == rest + unit;
    assert (left + middle + right) + unit == left + middle + right';
  }

  /** Trimming takes whitespace off both ends and nothing else. */
  lemma {:induction false} TrimSpaceSplits(s: Bytes, t: Bytes) returns (left: Bytes, right: Bytes)
    requires t == TrimSpace(s)
    ensures Framed(s, left, t, right)
    decreases |s|
  {
    if SpaceWidth(s) > 0 {
      var rest := s[SpaceWidth(s)..];
      left, right := TrimSpaceSplits(rest, t);
      left := FrameLeft(s, rest, left, t, right);
    } else if LastSpaceWidth(s) > 0 {
      var rest := s[..|s| - LastSpaceWidth(s)];
      left, right := TrimSpaceSplits(rest, t);
      right := FrameRight(s, rest, left, t, right);
    } else {
      left, right := [], [];
    }
  }

  /** One step of trimming. */
  lemma TrimSpaceStep(s: Bytes, t: Bytes) returns (rest: Bytes)
    requires t == TrimSpace(s)
    ensures t == TrimSpace(rest) && |rest| <= |s|
    ensures |rest| == |s| ==> t == s && SpaceWidth(s) == 0 && LastSpaceWidth(s) == 0
  {
    rest := if SpaceWidth(s) > 0 then s[SpaceWidth(s)..] else s[..|s| - LastSpaceWidth(s)];
  }

  /** What is left has no whitespace at either end. */
  lemma {:induction false} TrimSpaceIsDone(s: Bytes, t: Bytes)
    requires t == TrimSpace(s)
    ensures SpaceWidth(t) == 0 && LastSpaceWidth(t) == 0
    decreases |s|
  {
    var rest := TrimSpaceStep(s, t);
    if |rest| < |s| { TrimSpaceIsDone(rest, t); }
  }

  // ---- Fields ----

  /** Length of the longest prefix of s in which no whitespace character starts. */
  function WordEnd(s: Bytes): (k: nat)
    ensures k <= |s|
  {
    if s == [] || SpaceWidth(s) > 0 then 0 else 1 + WordEnd(s[1..])
  }

  /** The words of s, as strings.Fields splits them. */
  function Fields(s: Bytes): seq<Bytes>
    decreases |s|
  {
    var t := TrimLeft(s);
    if t == [] then [] else
      LeadingIsSpace(s);
      [t[..WordEnd(t)]] + Fields(t[WordEnd(t)..])
  }

  /** A word: not empty, and no whitespace character starts inside it. */
  predicate Solid(word: Bytes) { word != [] && WordEnd(word) == |word| }

  lemma {:induction false} WordEndOfPrefix(t: Bytes)
    ensures WordEnd(t[..WordEnd(t)]) == WordEnd(t)
  {
    var k := WordEnd(t);
    if k > 0 {
      WordEndOfPrefix(t[1..]);
      assert t[..k][1..] == t[1..][..k - 1];
      NoWidthInPrefix(t, k);
    }
  }

  lemma NoWidthInPrefix(t: Bytes, k: nat)
    requires k <= |t| && SpaceWidth(t) == 0
    ensures SpaceWidth(t[..k]) == 0
  {
  }

  lemma {:induction false} FieldsAreSolid(s: Bytes)
    ensures forall i :: 0 <= i < |Fields(s)| ==> Solid(Fields(s)[i])
    decreases |s|
  {
    var t := TrimLeft(s);
    if t != [] {
      LeadingIsSpace(s);
      WordEndOfPrefix(t);
      FieldsAreSolid(t[WordEnd(t)..]);
    }
  }

  /** Leading whitespace does not change the words. */
  lemma FieldsSkipsSpace(gap: Bytes, s: Bytes)
    requires AllSpace(gap)
    ensures Fields(gap + s) == Fields(s)
  {
    LeadingOfConcat(gap, s);
    assert TrimLeft(gap + s) == TrimLeft(s);
  }

  lemma NoWidthAcross(word: Bytes, rest: Bytes)
    requires word != [] && SpaceWidth(word) == 0 && (rest == [] || IsSpace1(rest[0]))
    ensures SpaceWidth(word + rest) == 0
  {
    var s := word + rest;
    assert |word| < |s| ==> s[|word|] == rest[0];
  }

  lemma {:induction false} WordEndAcross(word: Bytes, rest: Bytes)
    requires WordEnd(word) == |word| && (rest == [] || IsSpace1(rest[0]))
    ensures WordEnd(word + rest) == |word|
  {
    if word == [] {
      assert word + rest == rest;
    } else {
      WordEndAcross(word[1..], rest);
      assert (word + rest)[1..] == word[1..] + rest;
      NoWidthAcross(word, rest);
    }
  }

  /** A word followed by nothing or by an ASCII space is read back as itself. */
  lemma FieldsReadsWord(word: Bytes, rest: Bytes)
    requires Solid(word) && (rest == [] || IsSpace1(rest[0]))
    ensures Fields(word + rest) == [word] + Fields(rest)
  {
    var s := word + rest;
    NoWidthAcross(word, rest);
    WordEndAcross(word, rest);
    assert TrimLeft(s) == s && s[|word|..] == rest && s[..|word|] == word;
  }
}
