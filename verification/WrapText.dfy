/**
  Soft wrapping of help text: words go greedily onto lines of at most maxWidth
  bytes; a word wider than that gets a line of its own.
 */
module WrapText {
  import opened Text

  type Line = seq<Bytes>

  /** Bytes a line takes when its words are joined by single spaces. */
  function Width(line: Line): nat {
    if line == [] then 0 else if |line| == 1 then |line[0]| else |line[0]| + 1 + Width(line[1..])
  }

  function Render(line: Line): Bytes {
    if line == [] then [] else if |line| == 1 then line[0] else line[0] + " " + Render(line[1..])
  }

  function Flatten(lines: seq<Line>): seq<Bytes> {
    if lines == [] then [] else lines[0] + Flatten(lines[1..])
  }

  /** A line that may be printed: some words, and no wider than allowed unless it is one word. */
  predicate LegalLine(line: Line, maxWidth: int) {
    line != [] && (|line| == 1 || Width(line) <= maxWidth)
  }

  ghost predicate Legal(lines: seq<Line>, maxWidth: int) {
    forall i :: 0 <= i < |lines| ==> LegalLine(lines[i], maxWidth)
  }

  predicate Overflows(current: Line, word: Bytes, maxWidth: int) {
    current != [] && Width(current) + 1 + |word| > maxWidth
  }

  /** The lines of `current` and the words still to come: each line takes what fits. */
  function Fill(current: Line, words: seq<Bytes>, maxWidth: int): seq<Line>
    decreases |words|
  {
    if words == [] then if current == [] then [] else [current]
    else if Overflows(current, words[0], maxWidth) then [current] + Fill([words[0]], words[1..], maxWidth)
    else Fill(current + [words[0]], words[1..], maxWidth)
  }

  function Greedy(words: seq<Bytes>, maxWidth: int): seq<Line> { Fill([], words, maxWidth) }

  // ---- Greedy lines are legal, complete and fewest ----

  lemma {:induction false} WidthOfAppend(line: Line, w: Bytes)
    requires line != []
    ensures Width(line + [w]) == Width(line) + 1 + |w|
  {
    if |line| > 1 {
      assert (line + [w])[1..] == line[1..] + [w];
      WidthOfAppend(line[1..], w);
    } else {
      assert (line + [w])[1..] == [w];
    }
  }

  /** A line with one word too many stays too wide however it goes on. */
  lemma {:induction false} TooWide(line: Line, k: nat)
    requires 0 < k <= |line|
    ensures Width(line[..k]) <= Width(line)
    decreases |line|
  {
    if k == |line| {
      assert line[..k] == line;
    } else {
      var front := line[..|line| - 1];
      assert line == front + [line[|line| - 1]];
      WidthOfAppend(front, line[|line| - 1]);
      TooWide(front, k);
      assert front[..k] == line[..k];
    }
  }

  lemma {:induction false} WidthOfSuffix(line: Line, k: nat)
    requires k < |line|
    ensures Width(line[k..]) <= Width(line)
  {
    if k > 0 {
      assert line[1..][k - 1..] == line[k..];
      WidthOfSuffix(line[1..], k - 1);
    }
  }

  lemma {:induction false} FillIsLegal(current: Line, words: seq<Bytes>, maxWidth: int)
    requires current == [] || LegalLine(current, maxWidth)
    ensures Legal(Fill(current, words, maxWidth), maxWidth)
    ensures Flatten(Fill(current, words, maxWidth)) == current + words
    decreases |words|
  {
    if words == [] {
    } else if Overflows(current, words[0], maxWidth) {
      FillIsLegal([words[0]], words[1..], maxWidth);
      assert [words[0]] + words[1..] == words;
    } else {
      if current != [] { WidthOfAppend(current, words[0]); }
      FillIsLegal(current + [words[0]], words[1..], maxWidth);
      assert current + words == current + [words[0]] + words[1..];
    }
  }

  /** The lines hold exactly the words, in order, and every line is legal. */
  lemma GreedyIsLegal(words: seq<Bytes>, maxWidth: int)
    ensures Legal(Greedy(words, maxWidth), maxWidth) && Flatten(Greedy(words, maxWidth)) == words
  {
    FillIsLegal([], words, maxWidth);
    assert [] + words == words;
  }

  /** No line has room left for the first word of the next. */
  lemma {:induction false} FillFills(current: Line, words: seq<Bytes>, maxWidth: int)
    ensures var lines := Fill(current, words, maxWidth);
            && (forall k :: 0 <= k < |lines| ==> lines[k] != [])
            && (forall k :: 0 < k < |lines| ==> Overflows(lines[k - 1], lines[k][0], maxWidth))
            && (current != [] ==> lines != [] && current <= lines[0])
            && (current == [] && words != [] ==> lines != [] && lines[0] != [] && lines[0][0] == words[0])
    decreases |words|
  {
    if words != [] {
      if Overflows(current, words[0], maxWidth) {
        FillFills([words[0]], words[1..], maxWidth);
      } else {
        FillFills(current + [words[0]], words[1..], maxWidth);
      }
    }
  }

  lemma GreedyFillsItsLines(words: seq<Bytes>, maxWidth: int, k: nat)
    requires 0 < k < |Greedy(words, maxWidth)|
    ensures var lines := Greedy(words, maxWidth);
            lines[k] != [] && Width(lines[k - 1]) + 1 + |lines[k][0]| > maxWidth
  {
    FillFills([], words, maxWidth);
  }

  /** Dropping words from the front never needs more lines. */
  lemma {:induction false} DropFront(lines: seq<Line>, maxWidth: int, k: nat) returns (fewer: seq<Line>)
    requires Legal(lines, maxWidth) && k <= |Flatten(lines)|
    ensures Legal(fewer, maxWidth) && |fewer| <= |lines| && Flatten(fewer) == Flatten(lines)[k..]
    decreases |lines|
  {
    if lines == [] || k == 0 {
      fewer := lines;
    } else {
      var first, rest := lines[0], lines[1..];
      assert Legal(rest, maxWidth);
      if k < |first| {
        WidthOfSuffix(first, k);
        fewer := [first[k..]] + rest;
        assert fewer[1..] == rest;
      } else {
        fewer := DropFront(rest, maxWidth, k - |first|);
      }
    }
  }

  lemma LongerReachesNext(first: Line, rest: seq<Bytes>, current: Line, words: seq<Bytes>)
    requires first + rest == current + words && words != [] && |first| > |current|
    ensures first[..|current| + 1] == current + [words[0]]
  {
    var n := |current| + 1;
    assert first[..n] == (first + rest)[..n] == (current + words)[..n];
  }

  /** A legal first line cannot reach past a word that overflows. */
  lemma FirstLineStops(lines: seq<Line>, current: Line, words: seq<Bytes>, maxWidth: int)
    requires Legal(lines, maxWidth) && words != [] && Flatten(lines) == current + words
    requires Overflows(current, words[0], maxWidth)
    ensures lines != [] && |lines[0]| <= |current|
  {
    var first, over := lines[0], current + [words[0]];
    if |first| > |current| {
      LongerReachesNext(first, Flatten(lines[1..]), current, words);
      TooWide(first, |over|);
      WidthOfAppend(current, words[0]);
    }
  }

  lemma {:induction false} FillUsesFewestLines(lines: seq<Line>, current: Line, words: seq<Bytes>, maxWidth: int)
    requires Legal(lines, maxWidth) && Flatten(lines) == current + words
    ensures |Fill(current, words, maxWidth)| <= |lines|
    decreases |words|
  {
    if words == [] {
    } else if Overflows(current, words[0], maxWidth) {
      FirstLineStops(lines, current, words, maxWidth);
      var rest := lines[1..];
      assert Legal(rest, maxWidth);
      var spare := |current| - |lines[0]|;
      var fewer := DropFront(rest, maxWidth, spare);
      assert Flatten(rest) == (current + words)[|lines[0]|..] == current[|lines[0]|..] + words;
      assert Flatten(rest)[spare..] == words == [words[0]] + words[1..];
      FillUsesFewestLines(fewer, [words[0]], words[1..], maxWidth);
    } else {
      assert current + words == current + [words[0]] + words[1..];
      FillUsesFewestLines(lines, current + [words[0]], words[1..], maxWidth);
    }
  }

  /** No legal way of breaking the same words uses fewer lines. */
  lemma GreedyUsesFewestLines(lines: seq<Line>, words: seq<Bytes>, maxWidth: int)
    requires Legal(lines, maxWidth) && Flatten(lines) == words
    ensures |Greedy(words, maxWidth)| <= |lines|
  {
    assert [] + words == words;
    FillUsesFewestLines(lines, [], words, maxWidth);
  }

  // ---- The printed text ----

  function Join(lines: seq<Line>, sep: Bytes): Bytes {
    if lines == [] then [] else if |lines| == 1 then Render(lines[0]) else Render(lines[0]) + sep + Join(lines[1..], sep)
  }

  function Wrapped(s: Bytes, maxWidth: int, indent: Bytes): Bytes {
    var words := Fields(s);
    if words == [] then s else Join(Greedy(words, maxWidth), "\n" + indent)
  }

  predicate AllSolid(words: seq<Bytes>) {
    words == [] || (Solid(words[0]) && AllSolid(words[1..]))
  }

  lemma {:induction false} RenderWidth(line: Line)
    ensures |Render(line)| == Width(line)
  {
    if |line| > 1 { RenderWidth(line[1..]); }
  }

  /** Printed, no line of several words is wider than the limit. */
  lemma PrintedLinesFit(words: seq<Bytes>, maxWidth: int, k: nat)
    requires k < |Greedy(words, maxWidth)|
    ensures var line := Greedy(words, maxWidth)[k];
            && line != [] && (|line| > 1 ==> |Render(line)| <= maxWidth)
  {
    GreedyIsLegal(words, maxWidth);
    RenderWidth(Greedy(words, maxWidth)[k]);
  }

  lemma FieldsAcrossSpace(word: Bytes, tail: Bytes)
    requires Solid(word)
    ensures Fields(word + (" " + tail)) == [word] + Fields(tail)
  {
    FieldsReadsWord(word, " " + tail);
    assert AllSpace(" ") by { assert " "[1..] == []; }
    FieldsSkipsSpace(" ", tail);
  }

  lemma RenderCons(line: Line, rest: Bytes)
    requires |line| > 1
    ensures Render(line) + rest == line[0] + (" " + (Render(line[1..]) + rest))
  {
  }

  lemma HeadTail(line: Line, rest: Line, all: Line)
    requires line != [] && all == line[1..] + rest
    ensures [line[0]] + all == line + rest
  {
  }

  lemma SolidHead(line: Line)
    requires line != [] && AllSolid(line)
    ensures Solid(line[0]) && AllSolid(line[1..])
  {
  }

  lemma {:induction false} FieldsOfRender(line: Line, rest: Bytes, text: Bytes)
    requires line != [] && AllSolid(line) && (rest == [] || IsSpace1(rest[0])) && text == Render(line) + rest
    ensures Fields(text) == line + Fields(rest)
  {
    var first, others := line[0], line[1..];
    SolidHead(line);
    if others == [] {
      FieldsReadsWord(first, rest);
      assert line == [first] && text == first + rest;
    } else {
      var tail := Render(others) + rest;
      FieldsOfRender(others, rest, tail);
      FieldsAcrossSpace(first, tail);
      RenderCons(line, rest);
      HeadTail(line, Fields(rest), Fields(tail));
    }
  }

  lemma {:induction false} FieldsOfJoin(lines: seq<Line>, indent: Bytes)
    requires SolidLines(lines) && AllSpace(indent)
    ensures Fields(Join(lines, "\n" + indent)) == Flatten(lines)
  {
    if lines == [] {
    } else if |lines| == 1 {
      assert Render(lines[0]) + [] == Render(lines[0]);
      FieldsOfRender(lines[0], [], Render(lines[0]));
    } else {
      var sep, rest := "\n" + indent, Join(lines[1..], "\n" + indent);
      assert AllSpace(sep) by { assert sep[1..] == indent; }
      assert Join(lines, sep) == Render(lines[0]) + (sep + rest);
      FieldsOfRender(lines[0], sep + rest, Join(lines, sep));
      FieldsSkipsSpace(sep, rest);
      FieldsOfJoin(lines[1..], indent);
    }
  }

  lemma {:induction false} SolidParts(a: seq<Bytes>, b: seq<Bytes>)
    requires AllSolid(a + b)
    ensures AllSolid(a) && AllSolid(b)
  {
    if a == [] {
      assert a + b == b;
    } else {
      assert (a + b)[1..] == a[1..] + b;
      SolidParts(a[1..], b);
    }
  }

  ghost predicate SolidLines(lines: seq<Line>) {
    forall i :: 0 <= i < |lines| ==> lines[i] != [] && AllSolid(lines[i])
  }

  lemma {:induction false} LinesAreSolid(lines: seq<Line>, maxWidth: int)
    requires AllSolid(Flatten(lines)) && Legal(lines, maxWidth)
    ensures SolidLines(lines)
  {
    if lines != [] {
      SolidParts(lines[0], Flatten(lines[1..]));
      LinesAreSolid(lines[1..], maxWidth);
      assert forall i :: 0 < i < |lines| ==> lines[i] == lines[1..][i - 1];
    }
  }

  lemma {:induction false} AllFieldsAreSolid(s: Bytes)
    ensures AllSolid(Fields(s))
    decreases |s|
  {
    var t := TrimLeft(s);
    if t != [] {
      LeadingIsSpace(s);
      WordEndOfPrefix(t);
      AllFieldsAreSolid(t[WordEnd(t)..]);
    }
  }

  /** Every line but the first stands behind a separator, and nothing follows the last. */
  lemma {:induction false} LinesAreIndented(lines: seq<Line>, sep: Bytes, k: nat) returns (before: Bytes, after: Bytes)
    requires k < |lines|
    ensures Join(lines, sep) == before + Render(lines[k]) + after
    ensures if k == 0 then before == [] else |before| >= |sep| && before[|before| - |sep|..] == sep
    ensures if k == |lines| - 1 then after == [] else sep <= after
  {
    var first, rest := Render(lines[0]), lines[1..];
    if k == 0 {
      before, after := [], if |lines| == 1 then [] else sep + Join(rest, sep);
      assert Join(lines, sep) == first + after;
    } else {
      var inner;
      inner, after := LinesAreIndented(rest, sep, k - 1);
      before := first + sep + inner;
      assert first + sep + (inner + Render(lines[k]) + after) == before + Render(lines[k]) + after;
      if k == 1 { assert before == first + sep; }
    }
  }

  /** Wrapped, each line of a text but the first stands on a new line behind the indent; a text without words stays as it is. */
  lemma WrappedLines(s: Bytes, maxWidth: int, indent: Bytes, k: nat) returns (before: Bytes, after: Bytes)
    requires Fields(s) != [] ==> k < |Greedy(Fields(s), maxWidth)|
    ensures Fields(s) == [] ==> Wrapped(s, maxWidth, indent) == s
    ensures Fields(s) != [] ==>
              var lines := Greedy(Fields(s), maxWidth);
              && Wrapped(s, maxWidth, indent) == before + Render(lines[k]) + after
              && (k == 0 ==> before == []) && (k == |lines| - 1 ==> after == [])
              && (k > 0 ==> |before| > |indent| && before[|before| - |indent| - 1..] == "\n" + indent)
  {
    before, after := [], [];
    if Fields(s) != [] {
      before, after := LinesAreIndented(Greedy(Fields(s), maxWidth), "\n" + indent, k);
    }
  }

  /** Reading the wrapped text back gives the words of the original, whatever the width. */
  lemma WrappingKeepsTheWords(s: Bytes, maxWidth: int, indent: Bytes)
    requires AllSpace(indent)
    ensures Fields(Wrapped(s, maxWidth, indent)) == Fields(s)
  {
    var words := Fields(s);
    if words != [] {
      var lines := Greedy(words, maxWidth);
      AllFieldsAreSolid(s);
      GreedyIsLegal(words, maxWidth);
      LinesAreSolid(lines, maxWidth);
      FieldsOfJoin(lines, indent);
    }
  }

  // ---- The loop ----

  lemma {:induction false} RenderAppend(line: Line, w: Bytes)
    requires line != []
    ensures Render(line + [w]) == Render(line) + " " + w
  {
    if |line| == 1 {
      assert (line + [w])[1..] == [w];
    } else {
      assert (line + [w])[1..] == line[1..] + [w];
      RenderAppend(line[1..], w);
    }
  }

  /** strings.Join. */
  function JoinText(parts: seq<Bytes>, sep: Bytes): Bytes {
    if parts == [] then [] else if |parts| == 1 then parts[0] else parts[0] + sep + JoinText(parts[1..], sep)
  }

  function RenderAll(lines: seq<Line>): seq<Bytes> {
    seq(|lines|, i requires 0 <= i < |lines| => Render(lines[i]))
  }

  lemma {:induction false} JoinRendered(lines: seq<Line>, sep: Bytes)
    ensures JoinText(RenderAll(lines), sep) == Join(lines, sep)
  {
    if |lines| > 1 {
      assert RenderAll(lines)[1..] == RenderAll(lines[1..]);
      JoinRendered(lines[1..], sep);
    }
  }

  lemma RenderAllAppend(lines: seq<Line>, line: Line)
    ensures RenderAll(lines + [line]) == RenderAll(lines) + [Render(line)]
  {
  }

  /** The loop's variables: the finished lines, the one under construction, and the words still to place. */
  ghost predicate Tracks(lines: seq<Bytes>, current: Bytes, lineLen: int, done: seq<Line>, line: Line) {
    && lines == RenderAll(done) && current == Render(line)
    && lineLen == |current| == Width(line)
    && (line == [] <==> lineLen == 0)
  }

  lemma Flush(lines: seq<Bytes>, current: Bytes, lineLen: int, done: seq<Line>, line: Line)
    requires Tracks(lines, current, lineLen, done, line)
    ensures Tracks(lines + [current], [], 0, done + [line], [])
  {
    RenderAllAppend(done, line);
  }

  lemma Put(lines: seq<Bytes>, current: Bytes, lineLen: int, done: seq<Line>, line: Line, word: Bytes)
    requires Tracks(lines, current, lineLen, done, line) && word != []
    ensures lineLen > 0 ==> Tracks(lines, current + " " + word, lineLen + 1 + |word|, done, line + [word])
    ensures lineLen == 0 ==> Tracks(lines, current + word, lineLen + |word|, done, line + [word])
  {
    if line == [] {
      assert current + word == word && line + [word] == [word];
    } else {
      RenderAppend(line, word);
      WidthOfAppend(line, word);
    }
  }

  ghost predicate LoopInv(all: seq<Line>, lines: seq<Bytes>, current: Bytes, lineLen: int, done: seq<Line>, line: Line,
                          words: seq<Bytes>, maxWidth: int) {
    Tracks(lines, current, lineLen, done, line) && all == done + Fill(line, words, maxWidth)
  }

  /** One iteration: flush the line if the word does not fit, then add the word. */
  lemma Iteration(all: seq<Line>, lines: seq<Bytes>, current: Bytes, lineLen: int, done: seq<Line>, line: Line,
                  word: Bytes, words: seq<Bytes>, maxWidth: int)
    requires LoopInv(all, lines, current, lineLen, done, line, [word] + words, maxWidth) && word != []
    ensures
      if lineLen > 0 && lineLen + 1 + |word| > maxWidth then
        LoopInv(all, lines + [current], [] + word, 0 + |word|, done + [line], [] + [word], words, maxWidth)
      else if lineLen > 0 then
        LoopInv(all, lines, current + " " + word, lineLen + 1 + |word|, done, line + [word], words, maxWidth)
      else LoopInv(all, lines, current + word, lineLen + |word|, done, line + [word], words, maxWidth)
  {
    var rest := [word] + words;
    assert rest[1..] == words && rest[0] == word;
    if Overflows(line, word, maxWidth) {
      Flush(lines, current, lineLen, done, line);
      Put(lines + [current], [], 0, done + [line], [], word);
      assert [] + [word] == [word];
      assert done + [line] + Fill([word], words, maxWidth) == done + ([line] + Fill([word], words, maxWidth));
    } else {
      Put(lines, current, lineLen, done, line, word);
    }
  }

  method Wrap(s: Bytes, maxWidth: int, indent: Bytes) returns (text: Bytes)
    ensures text == Wrapped(s, maxWidth, indent)
  {
    var words := Fields(s);
    if |words| == 0 {
      return s;
    }
    assert forall i :: 0 <= i < |words| ==> words[i] != [] by { FieldsAreSolid(s); }
    text := WrapWords(words, maxWidth, indent);
  }

  method WrapWords(words: seq<Bytes>, maxWidth: int, indent: Bytes) returns (text: Bytes)
    requires words != [] && forall i :: 0 <= i < |words| ==> words[i] != []
    ensures text == Join(Greedy(words, maxWidth), "\n" + indent)
  {
    var lines: seq<Bytes> := [];
    var current: Bytes := [];
    var lineLen := 0;
    ghost var all: seq<Line>, done: seq<Line>, line: Line := Greedy(words, maxWidth), [], [];
    assert words[0..] == words;
    for i := 0 to |words|
      invariant LoopInv(all, lines, current, lineLen, done, line, words[i..], maxWidth)
      invariant i > 0 ==> line != []
    {
      var word := words[i];
      assert words[i..] == [word] + words[i + 1..];
      Iteration(all, lines, current, lineLen, done, line, word, words[i + 1..], maxWidth);
      if lineLen > 0 && lineLen + 1 + |word| > maxWidth {
        lines := lines + [current];
        done := done + [line];
        current := [];
        line := [];
        lineLen := 0;
      }
      if lineLen > 0 {
        current := current + " ";
        lineLen := lineLen + 1;
      }
      line := line + [word];
      current := current + word;
      lineLen := lineLen + |word|;
    }
    assert words[|words|..] == [];
    Flush(lines, current, lineLen, done, line);
    if |current| > 0 {
      lines := lines + [current];
    }
    JoinRendered(all, "\n" + indent);
    return JoinText(lines, "\n" + indent);
  }
}
