/**
  Splitting a long Discord message into chunks at natural boundaries, keeping
  fenced code blocks whole where that is possible.
 */
module SplitMessage {
  import opened Text

  const CODE_BLOCK_BUFFER := 500

  // ---- Looking for boundaries ----

  /** Index of the last newline at or after lo, or -1. */
  function LastNewline(s: Bytes, lo: nat): (r: int)
    ensures r == -1 || (lo <= r < |s| && s[r] == '\n')
  {
    if |s| <= lo then -1 else if s[|s| - 1] == '\n' then |s| - 1 else LastNewline(s[..|s| - 1], lo)
  }

  predicate Blank(c: char) { c == ' ' || c == '\t' }

  /** Index of the last space or tab at or after lo, or -1. */
  function LastBlank(s: Bytes, lo: nat): (r: int)
    ensures r == -1 || (lo <= r < |s| && Blank(s[r]))
  {
    if |s| <= lo then -1 else if Blank(s[|s| - 1]) then |s| - 1 else LastBlank(s[..|s| - 1], lo)
  }

  function WindowStart(s: Bytes, window: nat): nat { if |s| < window then 0 else |s| - window }

  method FindLastNewline(s: Bytes, searchWindow: nat) returns (r: int)
    ensures r == LastNewline(s, WindowStart(s, searchWindow))
  {
    var searchStart := |s| - searchWindow;
    if searchStart < 0 {
      searchStart := 0;
    }
    var i := |s| - 1;
    assert s[..i + 1] == s;
    while i >= searchStart
      invariant searchStart - 1 <= i < |s|
      invariant LastNewline(s, searchStart) == LastNewline(s[..i + 1], searchStart)
    {
      if s[i] == '\n' {
        return i;
      }
      assert s[..i + 1][..i] == s[..i];
      i := i - 1;
    }
    return -1;
  }

  method FindLastSpace(s: Bytes, searchWindow: nat) returns (r: int)
    ensures r == LastBlank(s, WindowStart(s, searchWindow))
  {
    var searchStart := |s| - searchWindow;
    if searchStart < 0 {
      searchStart := 0;
    }
    var i := |s| - 1;
    assert s[..i + 1] == s;
    while i >= searchStart
      invariant searchStart - 1 <= i < |s|
      invariant LastBlank(s, searchStart) == LastBlank(s[..i + 1], searchStart)
    {
      if s[i] == ' ' || s[i] == '\t' {
        return i;
      }
      assert s[..i + 1][..i] == s[..i];
      i := i - 1;
    }
    return -1;
  }

  // ---- Fences ----

  /** Three backticks start at i and end by n. */
  predicate FenceAt(s: Bytes, i: nat, n: nat)
    requires n <= |s|
  {
    i + 3 <= n && s[i] == '`' && s[i + 1] == '`' && s[i + 2] == '`'
  }

  /** Fences met when reading s[..n] from i, each consuming its three backticks. */
  function Fences(s: Bytes, i: nat, n: nat): nat
    requires n <= |s|
    decreases n - i
  {
    if i >= n then 0
    else if FenceAt(s, i, n) then 1 + Fences(s, i + 3, n)
    else Fences(s, i + 1, n)
  }

  /** First place at or after i where a fence starts in s[..n], or n. */
  function NextFence(s: Bytes, i: nat, n: nat): (r: nat)
    requires i <= n <= |s|
    ensures i <= r <= n && (r < n ==> FenceAt(s, r, n))
    decreases n - i
  {
    if i == n || FenceAt(s, i, n) then i else NextFence(s, i + 1, n)
  }

  /** It is the first: no fence starts between i and it. */
  lemma {:induction false} NextFenceIsFirst(s: Bytes, i: nat, n: nat)
    requires i <= n <= |s|
    ensures forall j :: i <= j < NextFence(s, i, n) ==> !FenceAt(s, j, n)
    decreases n - i
  {
    if i < n { NextFenceIsFirst(s, i + 1, n); }
  }

  /** The number of fence markers in a text. */
  function FenceCount(s: Bytes): nat { Fences(s, 0, |s|) }

  predicate Balanced(s: Bytes) { FenceCount(s) % 2 == 0 }

  /** Where the first fence is when their number is odd, or -1. */
  function Unclosed(s: Bytes): int {
    if Balanced(s) then -1 else NextFence(s, 0, |s|)
  }

  /** Where the first fence from `start` on ends, or -1. */
  function ClosingEnd(s: Bytes, start: nat): int
    requires start <= |s|
  {
    var q := NextFence(s, start, |s|);
    if q == |s| then -1 else q + 3
  }

  lemma {:induction false} FencesFromNext(s: Bytes, i: nat, n: nat)
    requires i <= n <= |s|
    ensures var q := NextFence(s, i, n); Fences(s, i, n) == if q == n then 0 else 1 + Fences(s, q + 3, n)
    decreases n - i
  {
    if i < n && !FenceAt(s, i, n) { FencesFromNext(s, i + 1, n); }
  }

  method FindLastUnclosedCodeBlock(text: Bytes) returns (r: int)
    ensures r == Unclosed(text)
  {
    var count, lastOpenIdx, i := 0, -1, 0;
    while i < |text|
      invariant 0 <= i
      invariant count >= 0 && count + Fences(text, i, |text|) == FenceCount(text)
      invariant count == 0 ==> i <= |text| && NextFence(text, i, |text|) == NextFence(text, 0, |text|)
      invariant count > 0 ==> lastOpenIdx == NextFence(text, 0, |text|)
    {
      if i + 2 < |text| && text[i] == '`' && text[i + 1] == '`' && text[i + 2] == '`' {
        if count == 0 {
          lastOpenIdx := i;
        }
        count := count + 1;
        i := i + 2;
      }
      i := i + 1;
    }
    if count % 2 == 1 {
      return lastOpenIdx;
    }
    return -1;
  }

  method FindNextClosingCodeBlock(text: Bytes, startIdx: nat) returns (r: int)
    requires startIdx <= |text|
    ensures r == ClosingEnd(text, startIdx)
  {
    for i := startIdx to |text|
      invariant NextFence(text, startIdx, |text|) == NextFence(text, i, |text|)
    {
      if i + 2 < |text| && text[i] == '`' && text[i + 1] == '`' && text[i + 2] == '`' {
        return i + 3;
      }
    }
    return -1;
  }

  // ---- Where to cut ----

  /** The last newline in the last 200 bytes, else the last blank in the last 100, else the end; never 0. */
  function Boundary(s: Bytes): (e: nat)
    requires s != []
    ensures 0 < e <= |s|
    ensures e < |s| ==> s[e] == '\n' || Blank(s[e])
  {
    var newline := LastNewline(s, WindowStart(s, 200));
    var blank := LastBlank(s, WindowStart(s, 100));
    if newline > 0 then newline else if blank > 0 then blank else |s|
  }

  function NaturalEnd(content: Bytes, limit: nat): (e: nat)
    requires 0 < limit <= |content|
    ensures 0 < e <= limit
  {
    Boundary(content[..limit])
  }

  function SplitPoint(content: Bytes, limit: nat): (e: nat)
    requires 0 < limit < |content|
    ensures 0 < e <= |content| && e <= limit + CODE_BLOCK_BUFFER
  {
    var end := NaturalEnd(content, limit);
    var unclosed := Unclosed(content[..end]);
    if unclosed < 0 then end
    else if |content| <= limit + CODE_BLOCK_BUFFER then |content|
    else
      var closing := ClosingEnd(content, end);
      if 0 < closing <= limit + CODE_BLOCK_BUFFER then closing
      else if unclosed == 0 then limit
      else Boundary(content[..unclosed])
  }

  function Split(content: Bytes, limit: nat): seq<Bytes>
    requires limit > 0
    decreases |content|
  {
    if content == [] then []
    else if |content| <= limit then [content]
    else
      var e := SplitPoint(content, limit);
      [content[..e]] + Split(TrimSpace(content[e..]), limit)
  }

  method ChooseEnd(content: Bytes, limit: nat) returns (msgEnd: int)
    requires 0 < limit < |content|
    ensures msgEnd == SplitPoint(content, limit) && CutsAt(content, limit, msgEnd)
  {
    CutsWhereTextBreaks(content, limit);
    msgEnd := FindLastNewline(content[..limit], 200);
    if msgEnd <= 0 {
      msgEnd := FindLastSpace(content[..limit], 100);
    }
    if msgEnd <= 0 {
      msgEnd := limit;
    }
    assert msgEnd == NaturalEnd(content, limit);

    var unclosedIdx := FindLastUnclosedCodeBlock(content[..msgEnd]);
    if unclosedIdx >= 0 {
      var extendedLimit := limit + CODE_BLOCK_BUFFER;
      if |content| > extendedLimit {
        var closingIdx := FindNextClosingCodeBlock(content, msgEnd);
        if closingIdx > 0 && closingIdx <= extendedLimit {
          msgEnd := closingIdx;
        } else {
          msgEnd := FindLastNewline(content[..unclosedIdx], 200);
          if msgEnd <= 0 {
            msgEnd := FindLastSpace(content[..unclosedIdx], 100);
          }
          if msgEnd <= 0 {
            msgEnd := unclosedIdx;
          }
        }
      } else {
        msgEnd := |content|;
      }
    }
    if msgEnd <= 0 {
      msgEnd := limit;
    }
  }

  /** One round of the loop: a chunk, and what is left to split. */
  method CutChunk(content: Bytes, limit: nat) returns (chunk: Bytes, rest: Bytes)
    requires 0 < limit < |content|
    ensures Split(content, limit) == [chunk] + Split(rest, limit) && |rest| < |content|
  {
    var msgEnd := ChooseEnd(content, limit);
    return content[..msgEnd], TrimSpace(content[msgEnd..]);
  }

  method SplitMessage(text: Bytes, limit: nat) returns (messages: seq<Bytes>)
    requires limit > 0
    ensures messages == Split(text, limit)
  {
    var content := text;
    messages := [];
    while |content| > 0
      invariant Split(text, limit) == messages + Split(content, limit)
      decreases |content|
    {
      if |content| <= limit {
        messages := messages + [content];
        return;
      }
      var chunk, rest := CutChunk(content, limit);
      assert messages + ([chunk] + Split(rest, limit)) == (messages + [chunk]) + Split(rest, limit);
      messages := messages + [chunk];
      content := rest;
    }
  }

  // ---- The natural end of a chunk ----

  lemma {:induction false} LastNewlineIsLast(s: Bytes, lo: nat)
    ensures forall i :: lo <= i < |s| && LastNewline(s, lo) < i ==> s[i] != '\n'
  {
    if |s| > lo && s[|s| - 1] != '\n' { LastNewlineIsLast(s[..|s| - 1], lo); }
  }

  lemma {:induction false} LastBlankIsLast(s: Bytes, lo: nat)
    ensures forall i :: lo <= i < |s| && LastBlank(s, lo) < i ==> !Blank(s[i])
  {
    if |s| > lo && !Blank(s[|s| - 1]) { LastBlankIsLast(s[..|s| - 1], lo); }
  }

  /** A newline in the last 200 bytes before n, but not at the start of the text. */
  predicate NewlineNear(content: Bytes, i: int, n: nat)
    requires n <= |content|
  {
    0 < i && n - 200 <= i < n && content[i] == '\n'
  }

  /** A space or tab in the last 100. */
  predicate BlankNear(content: Bytes, i: int, n: nat)
    requires n <= |content|
  {
    0 < i && n - 100 <= i < n && Blank(content[i])
  }

  /** Where text that may go up to n is broken: at the last newline near n, else at the last blank, else at n. */
  ghost predicate BreaksAt(content: Bytes, n: nat, e: nat)
    requires n <= |content|
  {
    if exists i :: NewlineNear(content, i, n) then
      NewlineNear(content, e, n) && forall i :: NewlineNear(content, i, n) ==> i <= e
    else if exists i :: BlankNear(content, i, n) then
      BlankNear(content, e, n) && forall i :: BlankNear(content, i, n) ==> i <= e
    else e == n
  }

  lemma BoundaryBreaks(content: Bytes, n: nat)
    requires 0 < n <= |content|
    ensures BreaksAt(content, n, Boundary(content[..n]))
  {
    var s := content[..n];
    var newline, blank := LastNewline(s, WindowStart(s, 200)), LastBlank(s, WindowStart(s, 100));
    LastNewlineIsLast(s, WindowStart(s, 200));
    LastBlankIsLast(s, WindowStart(s, 100));
    forall i | NewlineNear(content, i, n) ensures i <= newline { assert s[i] == content[i]; }
    forall i | BlankNear(content, i, n) ensures i <= blank { assert s[i] == content[i]; }
    if newline > 0 { assert NewlineNear(content, newline, n); }
    if blank > 0 { assert BlankNear(content, blank, n); }
  }

  lemma BreaksOnce(content: Bytes, n: nat, a: nat, b: nat)
    requires n <= |content| && BreaksAt(content, n, a) && BreaksAt(content, n, b)
    ensures a == b
  {
  }

  /** The first fence at or after a place. */
  ghost predicate FirstFence(content: Bytes, from: nat, q: nat) {
    from <= q && FenceAt(content, q, |content|) && forall j :: from <= j < q ==> !FenceAt(content, j, |content|)
  }

  /** The first fence from m on ends within the buffer. */
  ghost predicate ClosesAt(content: Bytes, m: nat, limit: nat, q: nat) {
    FirstFence(content, m, q) && q + 3 <= limit + CODE_BLOCK_BUFFER
  }

  /**
    Where a chunk ends whose natural end is m.  If no fence is open there, at m.
    Otherwise at the end of the text, if that is within the buffer; else just past
    the next fence, if that is; else where the text up to the first fence breaks;
    and at the limit if the text begins with that fence.
   */
  ghost predicate EndsAt(content: Bytes, limit: nat, m: nat, e: nat)
    requires m <= limit <= |content|
  {
    if Fences(content, 0, m) % 2 == 0 then e == m
    else if |content| <= limit + CODE_BLOCK_BUFFER then e == |content|
    else if exists q: nat :: ClosesAt(content, m, limit, q) then exists q: nat :: ClosesAt(content, m, limit, q) && e == q + 3
    else exists u: nat :: FirstFence(content, 0, u) && u <= |content| && if u == 0 then e == limit else BreaksAt(content, u, e)
  }

  /** The cut, by positions in the text. */
  ghost predicate CutsAt(content: Bytes, limit: nat, e: nat)
    requires limit <= |content|
  {
    exists m: nat :: m <= limit && BreaksAt(content, limit, m) && EndsAt(content, limit, m, e)
  }

  lemma ClosingIsFirst(content: Bytes, m: nat, limit: nat)
    requires m <= |content|
    ensures var closing := ClosingEnd(content, m);
            && (0 < closing <= limit + CODE_BLOCK_BUFFER ==> ClosesAt(content, m, limit, closing - 3))
            && (!(0 < closing <= limit + CODE_BLOCK_BUFFER) ==> !exists q: nat :: ClosesAt(content, m, limit, q))
  {
    var q := NextFence(content, m, |content|);
    NextFenceIsFirst(content, m, |content|);
    forall r: nat | ClosesAt(content, m, limit, r) ensures r == q {
      NextFenceIs(content, m, |content|, r);
    }
  }

  /** The fence that is open at m is the first of the text. */
  lemma OpenIsFirst(content: Bytes, m: nat)
    requires m <= |content| && Unclosed(content[..m]) >= 0
    ensures FirstFence(content, 0, Unclosed(content[..m])) && Unclosed(content[..m]) < m
  {
    UnclosedMeans(content, m);
    var u := Unclosed(content[..m]);
    NextFenceIsFirst(content, 0, m);
    forall j | 0 <= j < u ensures !FenceAt(content, j, |content|) { assert !FenceAt(content, j, m); }
  }

  /** Every cut is where it should be, whether a fence is open or not. */
  lemma CutsWhereTextBreaks(content: Bytes, limit: nat)
    requires 0 < limit < |content|
    ensures CutsAt(content, limit, SplitPoint(content, limit))
  {
    var m, e := NaturalEnd(content, limit), SplitPoint(content, limit);
    BoundaryBreaks(content, limit);
    UnclosedMeans(content, m);
    var u := Unclosed(content[..m]);
    if u >= 0 && |content| > limit + CODE_BLOCK_BUFFER {
      ClosingIsFirst(content, m, limit);
      OpenIsFirst(content, m);
      if u > 0 { BoundaryBreaks(content, u); }
      if exists q: nat :: ClosesAt(content, m, limit, q) { assert ClosesAt(content, m, limit, e - 3); }
    }
    assert EndsAt(content, limit, m, e);
  }

  /** There is only one such place. */
  lemma CutsOnce(content: Bytes, limit: nat, a: nat, b: nat)
    requires 0 < limit < |content| && CutsAt(content, limit, a) && CutsAt(content, limit, b)
    ensures a == b
  {
    var m: nat :| m <= limit && BreaksAt(content, limit, m) && EndsAt(content, limit, m, a);
    var n: nat :| n <= limit && BreaksAt(content, limit, n) && EndsAt(content, limit, n, b);
    BreaksOnce(content, limit, m, n);
    if Fences(content, 0, m) % 2 == 1 && |content| > limit + CODE_BLOCK_BUFFER {
      if exists q: nat :: ClosesAt(content, m, limit, q) {
        var q: nat :| ClosesAt(content, m, limit, q) && a == q + 3;
        var r: nat :| ClosesAt(content, m, limit, r) && b == r + 3;
        FirstFenceOnce(content, m, q, r);
      } else {
        var u: nat :| FirstFence(content, 0, u) && u <= |content| && if u == 0 then a == limit else BreaksAt(content, u, a);
        var v: nat :| FirstFence(content, 0, v) && v <= |content| && if v == 0 then b == limit else BreaksAt(content, v, b);
        FirstFenceOnce(content, 0, u, v);
        if u > 0 { BreaksOnce(content, u, a, b); }
      }
    }
  }

  lemma FirstFenceOnce(content: Bytes, from: nat, a: nat, b: nat)
    requires FirstFence(content, from, a) && FirstFence(content, from, b)
    ensures a == b
  {
  }

  // ---- Nothing is lost ----

  /** Chunks, each followed by its gap. */
  function Weave(chunks: seq<Bytes>, gaps: seq<Bytes>): Bytes
    requires |gaps| == |chunks|
  {
    if chunks == [] then [] else chunks[0] + gaps[0] + Weave(chunks[1..], gaps[1..])
  }

  ghost predicate Blanks(gaps: seq<Bytes>) {
    forall i :: 0 <= i < |gaps| ==> AllSpace(gaps[i])
  }

  lemma {:induction false} WeaveEnd(chunks: seq<Bytes>, gaps: seq<Bytes>, tail: Bytes) returns (gaps': seq<Bytes>)
    requires |gaps| == |chunks| > 0 && Blanks(gaps) && AllSpace(tail)
    ensures |gaps'| == |chunks| && Blanks(gaps') && Weave(chunks, gaps') == Weave(chunks, gaps) + tail
  {
    if |chunks| == 1 {
      AllSpaceConcat(gaps[0], tail);
      gaps' := [gaps[0] + tail];
      assert chunks[0] + gaps[0] + tail == chunks[0] + (gaps[0] + tail);
    } else {
      var rest := WeaveEnd(chunks[1..], gaps[1..], tail);
      gaps' := [gaps[0]] + rest;
      assert gaps'[1..] == rest;
    }
  }

  lemma WeaveCons(chunk: Bytes, gap: Bytes, chunks: seq<Bytes>, gaps: seq<Bytes>, text: Bytes)
    requires |gaps| == |chunks| && AllSpace(gap) && Blanks(gaps) && text == chunk + gap + Weave(chunks, gaps)
    ensures Blanks([gap] + gaps) && Weave([chunk] + chunks, [gap] + gaps) == text
  {
    assert ([chunk] + chunks)[1..] == chunks && ([gap] + gaps)[1..] == gaps;
  }

  lemma SplitUnfolds(content: Bytes, limit: nat) returns (chunk: Bytes, tail: Bytes, rest: Bytes)
    requires 0 < limit < |content|
    ensures content == chunk + tail && rest == TrimSpace(tail) && |rest| < |content|
    ensures Split(content, limit) == [chunk] + Split(rest, limit)
  {
    var e := SplitPoint(content, limit);
    chunk, tail := content[..e], content[e..];
    rest := TrimSpace(tail);
  }

  /** The text is the chunks in order with only whitespace between and after them. */
  lemma {:induction false} ChunksRebuildTheText(content: Bytes, limit: nat, chunks: seq<Bytes>) returns (gaps: seq<Bytes>)
    requires limit > 0 && chunks == Split(content, limit)
    ensures |gaps| == |chunks| && Blanks(gaps) && Weave(chunks, gaps) == content
    decreases |content|
  {
    var empty: Bytes := [];
    assert AllSpace(empty);
    if content == [] {
      gaps := [];
    } else if |content| <= limit {
      gaps := [empty];
      WeaveCons(content, empty, [], [], content);
    } else {
      var chunk, tail, rest := SplitUnfolds(content, limit);
      var left, right := TrimSpaceSplits(tail, rest);
      var later := ChunksRebuildTheText(rest, limit, chunks[1..]);
      gaps := GapsAround(content, chunk, tail, left, rest, right, chunks, later);
    }
  }

  lemma GapsAround(content: Bytes, chunk: Bytes, tail: Bytes, left: Bytes, rest: Bytes, right: Bytes,
                   chunks: seq<Bytes>, later: seq<Bytes>)
    returns (gaps: seq<Bytes>)
    requires content == chunk + tail && Framed(tail, left, rest, right) && chunks != [] && chunk == chunks[0]
    requires |later| == |chunks[1..]| && Blanks(later) && Weave(chunks[1..], later) == rest
    ensures |gaps| == |chunks| && Blanks(gaps) && Weave(chunks, gaps) == content
  {
    if |chunks| == 1 {
      AllSpaceConcat(left, right);
      gaps := [left + right];
      assert content == chunk + (left + right) + [];
      WeaveCons(chunk, left + right, [], [], content);
      assert chunks == [chunk] + [];
    } else {
      var later' := WeaveEnd(chunks[1..], later, right);
      gaps := [left] + later';
      assert content == chunk + left + (rest + right);
      WeaveCons(chunk, left, chunks[1..], later', content);
      assert chunks == [chunk] + chunks[1..];
    }
  }

  /** Every chunk can be sent: it is not empty and fits the limit plus the code-block buffer. */
  lemma {:induction false} ChunksFit(content: Bytes, limit: nat)
    requires limit > 0
    ensures forall i :: 0 <= i < |Split(content, limit)| ==> 0 < |Split(content, limit)[i]| <= limit + CODE_BLOCK_BUFFER
    decreases |content|
  {
    if |content| > limit {
      var e := SplitPoint(content, limit);
      ChunksFit(TrimSpace(content[e..]), limit);
    }
  }

  lemma FirstIsTrimmed(rest: Bytes, limit: nat, first: Bytes)
    requires limit > 0 && rest != [] && SpaceWidth(rest) == 0 && first == Split(rest, limit)[0]
    ensures SpaceWidth(first) == 0
  {
    assert first == rest[..|first|];
    NoWidthInPrefix(rest, |first|);
  }

  /** No chunk but the first begins with whitespace. */
  lemma {:induction false} LaterChunksAreTrimmed(content: Bytes, limit: nat)
    requires limit > 0
    ensures forall i :: 0 < i < |Split(content, limit)| ==> SpaceWidth(Split(content, limit)[i]) == 0
    decreases |content|
  {
    if |content| > limit {
      var chunk, tail, rest := SplitUnfolds(content, limit);
      LaterChunksAreTrimmed(rest, limit);
      TrimSpaceIsDone(tail, rest);
      if rest != [] { FirstIsTrimmed(rest, limit, Split(rest, limit)[0]); }
    }
  }

  // ---- Fences stay balanced ----

  lemma {:induction false} FencesOfPrefix(s: Bytes, i: nat, n: nat)
    requires n <= |s|
    ensures Fences(s[..n], i, n) == Fences(s, i, n)
    decreases n - i
  {
    if i < n {
      FencesOfPrefix(s, i + 1, n);
      if FenceAt(s, i, n) { FencesOfPrefix(s, i + 3, n); }
    }
  }

  lemma {:induction false} NextFenceOfPrefix(s: Bytes, i: nat, n: nat)
    requires i <= n <= |s|
    ensures NextFence(s[..n], i, n) == NextFence(s, i, n)
    decreases n - i
  {
    if i < n { NextFenceOfPrefix(s, i + 1, n); }
  }

  /** Where the fence that covers both m - 1 and m starts when s[..n] is read from i, or -1. */
  function Straddling(s: Bytes, i: nat, m: nat, n: nat): int
    requires m <= n <= |s|
    decreases m - i
  {
    if i >= m then -1
    else if FenceAt(s, i, n) then if i + 3 > m then i else Straddling(s, i + 3, m, n)
    else Straddling(s, i + 1, m, n)
  }

  /** Counting up to n is counting up to m, plus a fence across m if there is one, plus the rest. */
  lemma {:induction false} CountThroughCut(s: Bytes, i: nat, m: nat, n: nat)
    requires i <= m <= n <= |s|
    ensures var p := Straddling(s, i, m, n);
            && p < m && (p >= 0 ==> i <= p && p + 3 > m && FenceAt(s, p, n))
            && Fences(s, i, n) == Fences(s, i, m) + if p < 0 then Fences(s, m, n) else 1 + Fences(s, p + 3, n)
    decreases m - i
  {
    if i < m {
      if !FenceAt(s, i, n) {
        CountThroughCut(s, i + 1, m, n);
      } else if i + 3 <= m {
        CountThroughCut(s, i + 3, m, n);
      } else {
        TooShort(s, i, m);
      }
    }
  }

  lemma {:induction false} TooShort(s: Bytes, i: nat, n: nat)
    requires n <= |s| && n < i + 3
    ensures Fences(s, i, n) == 0
    decreases n - i
  {
    if i < n { TooShort(s, i + 1, n); }
  }

  /** A fence can lie across m only if a backtick is at m. */
  lemma NoFenceAcross(s: Bytes, i: nat, m: nat, n: nat)
    requires i <= m < n <= |s| && s[m] != '`'
    ensures Straddling(s, i, m, n) == -1
  {
    CountThroughCut(s, i, m, n);
    StraddlingIsIndex(s, i, m, n);
  }

  lemma {:induction false} StraddlingIsIndex(s: Bytes, i: nat, m: nat, n: nat)
    requires m <= n <= |s|
    ensures Straddling(s, i, m, n) >= -1
    decreases m - i
  {
    if i < m {
      StraddlingIsIndex(s, i + 1, m, n);
      if FenceAt(s, i, n) { StraddlingIsIndex(s, i + 3, m, n); }
    }
  }

  /** The text has a fence across a hard cut, and the next fence lies clear of it. */
  predicate CutsFence(content: Bytes, m: nat)
    requires m <= |content|
  {
    var p := Straddling(content, 0, m, |content|);
    p >= 0 && NextFence(content, m, |content|) >= p + 3
  }

  lemma {:induction false} StraddlingOfLonger(s: Bytes, i: nat, m: nat, n: nat)
    requires m + 2 <= n <= |s|
    ensures Straddling(s, i, m, n) == Straddling(s, i, m, |s|)
    decreases m - i
  {
    if i < m {
      StraddlingOfLonger(s, i + 1, m, n);
      if FenceAt(s, i, n) { StraddlingOfLonger(s, i + 3, m, n); }
    }
  }

  lemma {:induction false} NextFenceIs(s: Bytes, i: nat, n: nat, q: nat)
    requires i <= q <= n <= |s| && (q < n ==> FenceAt(s, q, n))
    requires forall j :: i <= j < q ==> !FenceAt(s, j, n)
    ensures NextFence(s, i, n) == q
    decreases n - i
  {
    if i < q { NextFenceIs(s, i + 1, n, q); }
  }

  /** Extending the chunk to the next fence's end adds one fence, unless it also completes a cut one. */
  lemma ExtendedCount(content: Bytes, m: nat)
    requires m <= |content| && NextFence(content, m, |content|) < |content|
    ensures var e := NextFence(content, m, |content|) + 3;
            Fences(content, 0, e) == Fences(content, 0, m) + if CutsFence(content, m) then 2 else 1
  {
    var n, q := |content|, NextFence(content, m, |content|);
    var e := q + 3;
    CountThroughCut(content, 0, m, e);
    StraddlingOfLonger(content, 0, m, e);
    StraddlingIsIndex(content, 0, m, e);
    var p := Straddling(content, 0, m, e);
    var from := if p < 0 then m else p + 3;
    if from <= q {
      NextFenceIsFirst(content, m, n);
      forall j | from <= j < q ensures !FenceAt(content, j, e) {
        assert !FenceAt(content, j, n);
      }
      assert FenceAt(content, q, e);
      NextFenceIs(content, from, e, q);
      FencesFromNext(content, from, e);
      TooShort(content, e, e);
    } else {
      TooShort(content, from, e);
    }
  }

  /** No fence starts between m and n, so counting to n is counting to m. */
  lemma NothingAdded(s: Bytes, m: nat, n: nat)
    requires m <= n <= |s| && (m < n ==> s[m] != '`')
    requires forall j :: m <= j < n ==> !FenceAt(s, j, n)
    ensures Fences(s, 0, n) == Fences(s, 0, m)
  {
    if m < n {
      CountThroughCut(s, 0, m, n);
      NoFenceAcross(s, 0, m, n);
      NextFenceIs(s, m, n, n);
      FencesFromNext(s, m, n);
    }
  }

  /**
    Exactly when a chunk that leaves text behind has an odd number of fences:
    its natural end does, the rest is too long to swallow whole, and either the
    next fence is within the buffer but the hard cut fell inside a fence, or it
    is not and the text begins with a fence, leaving nowhere earlier to cut.
   */
  predicate Unavoidable(content: Bytes, limit: nat)
    requires 0 < limit < |content|
  {
    var m := NaturalEnd(content, limit);
    var closing := ClosingEnd(content, m);
    && Unclosed(content[..m]) >= 0
    && |content| > limit + CODE_BLOCK_BUFFER
    && if 0 < closing <= limit + CODE_BLOCK_BUFFER then CutsFence(content, m) else FenceAt(content, 0, |content|)
  }

  lemma UnclosedMeans(s: Bytes, m: nat)
    requires m <= |s|
    ensures Unclosed(s[..m]) >= 0 <==> Fences(s, 0, m) % 2 == 1
    ensures Unclosed(s[..m]) >= 0 ==> Unclosed(s[..m]) == NextFence(s, 0, m) < m
  {
    FencesOfPrefix(s, 0, m);
    NextFenceOfPrefix(s, 0, m);
    FencesFromNext(s, 0, m);
  }

  lemma CutIsOddExactly(content: Bytes, limit: nat)
    requires 0 < limit < |content| && SplitPoint(content, limit) < |content|
    ensures !Balanced(content[..SplitPoint(content, limit)]) <==> Unavoidable(content, limit)
  {
    var m, e := NaturalEnd(content, limit), SplitPoint(content, limit);
    UnclosedMeans(content, m);
    FencesOfPrefix(content, 0, e);
    var unclosed, closing := Unclosed(content[..m]), ClosingEnd(content, m);
    if unclosed >= 0 {
      if 0 < closing <= limit + CODE_BLOCK_BUFFER {
        ExtendedCount(content, m);
      } else if unclosed == 0 {
        LimitCut(content, limit);
      } else {
        EarlierCut(content, m, unclosed, e);
      }
    }
  }

  /** Cutting at the limit instead of the natural end meets no further fence. */
  lemma LimitCut(content: Bytes, limit: nat)
    requires 0 < limit && limit + CODE_BLOCK_BUFFER < |content|
    requires var closing := ClosingEnd(content, NaturalEnd(content, limit)); !(0 < closing <= limit + CODE_BLOCK_BUFFER)
    ensures Fences(content, 0, limit) == Fences(content, 0, NaturalEnd(content, limit))
  {
    var m := NaturalEnd(content, limit);
    assert m < limit ==> content[m] == content[..limit][m];
    NextFenceIsFirst(content, m, |content|);
    forall j | m <= j < limit ensures !FenceAt(content, j, limit) {
      assert j < NextFence(content, m, |content|) || j + 3 > limit;
      assert !FenceAt(content, j, |content|) || j + 3 > limit;
    }
    NothingAdded(content, m, limit);
  }

  /** A chunk that stops before the first fence has none. */
  lemma EarlierCut(content: Bytes, m: nat, u: nat, e: nat)
    requires m <= |content| && u == NextFence(content, 0, m) && 0 < e <= u < m
    ensures Fences(content, 0, e) == 0 && !FenceAt(content, 0, |content|)
  {
    NextFenceIsFirst(content, 0, m);
    forall j | 0 <= j < e ensures !FenceAt(content, j, e) {
      assert !FenceAt(content, j, m);
    }
    NextFenceIs(content, 0, e, e);
    FencesFromNext(content, 0, e);
    assert !FenceAt(content, 0, m);
  }

  /** The text left to split when each chunk is cut. */
  function Remainders(content: Bytes, limit: nat): (r: seq<Bytes>)
    requires limit > 0
    ensures |r| == |Split(content, limit)|
    decreases |content|
  {
    if content == [] then []
    else if |content| <= limit then [content]
    else
      var e := SplitPoint(content, limit);
      [content] + Remainders(TrimSpace(content[e..]), limit)
  }

  ghost predicate OddExactlyWhenUnavoidable(chunk: Bytes, rest: Bytes, limit: nat) {
    0 < limit < |rest| && (!Balanced(chunk) <==> Unavoidable(rest, limit))
  }

  /** Of all chunks but the last, precisely the unavoidable ones have an odd number of fences. */
  lemma {:induction false} ChunksAreBalanced(content: Bytes, limit: nat)
    requires limit > 0
    ensures forall i :: 0 <= i < |Split(content, limit)| - 1 ==>
              OddExactlyWhenUnavoidable(Split(content, limit)[i], Remainders(content, limit)[i], limit)
    decreases |content|
  {
    if |content| > limit {
      var e := SplitPoint(content, limit);
      var rest := TrimSpace(content[e..]);
      ChunksAreBalanced(rest, limit);
      if e < |content| {
        CutIsOddExactly(content, limit);
      } else {
        assert |rest| == 0 && Split(rest, limit) == [];
      }
      var chunks, texts := Split(content, limit), Remainders(content, limit);
      assert chunks == [content[..e]] + Split(rest, limit) && texts == [content] + Remainders(rest, limit);
    }
  }

  /** The two ways out in plain words: a balanced chunk, a text that begins with a fence, or a fence across the limit. */
  lemma OnlyTwoExceptions(content: Bytes, limit: nat)
    requires 0 < limit < |content| && Unavoidable(content, limit)
    ensures FenceAt(content, 0, |content|) || Straddling(content, 0, limit, |content|) >= 0
  {
    var m := NaturalEnd(content, limit);
    if m < limit {
      assert content[m] == content[..limit][m];
      NoFenceAcross(content, 0, m, |content|);
    }
  }

  /** A code block of two thousand bytes: a fence, then text without any place to cut. */
  function LongBlock(): Bytes { "```" + seq(2000, _ => 'a') }

  lemma {:induction false} NoBreak(s: Bytes, lo: nat)
    requires forall i :: 0 <= i < |s| ==> s[i] == '`' || s[i] == 'a'
    ensures LastNewline(s, lo) == -1 && LastBlank(s, lo) == -1
  {
    if |s| > lo { NoBreak(s[..|s| - 1], lo); }
  }

  /** At the limit the sender uses, the first chunk of such a block has one fence. */
  lemma OddChunkWitness()
    ensures Unavoidable(LongBlock(), 1500) && SplitPoint(LongBlock(), 1500) == 1500
    ensures FenceCount(LongBlock()[..1500]) == 1
  {
    var s := LongBlock();
    var head := s[..1500];
    assert |s| == 2003 && s[..3] == "```" && forall i :: 3 <= i < 2003 ==> s[i] == 'a';
    assert s[0] == s[..3][0] && s[1] == s[..3][1] && s[2] == s[..3][2];
    NoBreak(head, WindowStart(head, 200));
    NoBreak(head, WindowStart(head, 100));
    assert NaturalEnd(s, 1500) == 1500;
    OneFence(head);
    NextFenceIs(s, 1500, 2003, 2003);
  }

  lemma OneFence(s: Bytes)
    requires |s| >= 3 && FenceAt(s, 0, |s|) && forall i :: 3 <= i < |s| ==> s[i] == 'a'
    ensures FenceCount(s) == 1 && NextFence(s, 0, |s|) == 0
  {
    NextFenceIs(s, 3, |s|, |s|);
    FencesFromNext(s, 3, |s|);
  }
}
