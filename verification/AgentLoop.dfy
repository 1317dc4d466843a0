/**
  The message history of an agent turn: each batch of tool calls is an assistant
  message followed by its replies in order, truncation may cut the history
  anywhere, and the turn loop stops before a tool is called too often.
 */
module AgentLoop {
  import opened Runs
  import opened Wrappers
  import opened Sequences
  import opened LoopDetect

  datatype ToolCall = ToolCall(id: string, name: string, argsHash: string)

  datatype Message =
    | System(content: string)
    | User(content: string)
    | Assistant(content: string, calls: seq<ToolCall>)
    | Tool(callId: string, content: string)

  // ---- Well-paired histories ----

  /** The calls still to be answered after a history, or none if some reply does not fit. */
  function Expect(h: seq<Message>): Option<seq<ToolCall>> {
    if h == [] then Some([])
    else
      var before := Expect(h[..|h| - 1]);
      if before.None? then None else Follow(before.value, h[|h| - 1])
  }

  function Follow(pending: seq<ToolCall>, m: Message): Option<seq<ToolCall>> {
    match m
    case Tool(id, _) => if pending != [] && pending[0].id == id then Some(pending[1..]) else None
    case Assistant(_, calls) => if pending == [] then Some(calls) else None
    case _ => if pending == [] then Some([]) else None
  }

  /** The message at j has a call for the message at i, or will have when there is one. */
  predicate Owns(h: seq<Message>, j: int, i: int)
    requires 0 <= j < |h|
  {
    h[j].Assistant? && j < i <= j + |h[j].calls|
  }

  predicate Answers(caller: Message, k: nat, m: Message) {
    caller.Assistant? && k < |caller.calls| && m.Tool? && m.callId == caller.calls[k].id
  }

  /** The message at i answers whatever call is made for its place, and is a reply only if one is. */
  ghost predicate Fits(h: seq<Message>, i: nat)
    requires i < |h|
  {
    && (forall j: nat :: j < i && Owns(h, j, i) ==> Answers(h[j], i - j - 1, h[i]))
    && (h[i].Tool? ==> exists j: nat :: j < i && Owns(h, j, i))
  }

  ghost predicate Paired(h: seq<Message>) { forall i: nat :: i < |h| ==> Fits(h, i) }

  /** These are the calls made for the places after the end. */
  ghost predicate Awaits(h: seq<Message>, pending: seq<ToolCall>) {
    && (forall j: nat :: j < |h| && Owns(h, j, |h|) ==> pending == h[j].calls[|h| - j - 1..])
    && (pending != [] ==> exists j: nat :: j < |h| && Owns(h, j, |h|))
  }

  lemma FollowMeans(h: seq<Message>, pending: seq<ToolCall>, m: Message, h': seq<Message>)
    requires Awaits(h, pending) && h' == h + [m]
    ensures Follow(pending, m).Some? <==> Fits(h', |h|)
    ensures Follow(pending, m).Some? ==> Awaits(h', Follow(pending, m).value)
  {
    var n := |h|;
    assert forall j: nat :: j < n ==> h'[j] == h[j];
    assert forall j: nat :: j < n ==> Owns(h', j, n) == Owns(h, j, n);
    assert forall j: nat :: j < n && Owns(h', j, n + 1) ==> Owns(h, j, n);
    assert Owns(h', n, n + 1) <==> m.Assistant? && m.calls != [];
    if pending != [] {
      var j: nat :| j < n && Owns(h, j, n);
      assert Owns(h', j, n + 1) <==> |pending| > 1;
    }
  }

  lemma {:induction false} PrefixFits(h: seq<Message>, m: Message, i: nat)
    requires i < |h|
    ensures Fits(h + [m], i) <==> Fits(h, i)
  {
    var h' := h + [m];
    assert forall j: nat :: j < |h| ==> h'[j] == h[j];
    assert forall j: nat :: j < i ==> Owns(h', j, i) == Owns(h, j, i);
  }

  /** Reading a history from the left accepts exactly the well-paired ones. */
  lemma {:induction false} ExpectIffPaired(h: seq<Message>)
    ensures Expect(h).Some? <==> Paired(h)
    ensures Expect(h).Some? ==> Awaits(h, Expect(h).value)
  {
    if h != [] {
      var h0, m := h[..|h| - 1], h[|h| - 1];
      assert h == h0 + [m];
      ExpectIffPaired(h0);
      forall i: nat | i < |h0| ensures Fits(h, i) <==> Fits(h0, i) { PrefixFits(h0, m, i); }
      assert Paired(h) <==> Paired(h0) && Fits(h, |h0|);
      if Expect(h0).Some? { FollowMeans(h0, Expect(h0).value, m, h); }
    }
  }

  // ---- Cutting a history ----

  /** Without the tool messages at the front. */
  function Stripped(h: seq<Message>): seq<Message> { if h != [] && h[0].Tool? then Stripped(h[1..]) else h }

  lemma {:induction false} StrippedAppend(h: seq<Message>, m: Message)
    ensures Stripped(h + [m]) == if Stripped(h) == [] && m.Tool? then [] else Stripped(h) + [m]
  {
    if h == [] {
      assert h + [m] == [m];
      assert [m][1..] == [];
    } else if h[0].Tool? {
      assert (h + [m])[1..] == h[1..] + [m];
      StrippedAppend(h[1..], m);
    }
  }

  lemma ExpectAppend(h: seq<Message>, m: Message)
    ensures Expect(h + [m]) == if Expect(h).None? then None else Follow(Expect(h).value, m)
  {
    assert (h + [m])[..|h|] == h;
  }

  /** Appending the next message to what a cut has left. */
  lemma CutGrows(front: seq<Message>, h: seq<Message>, k: nat, m: Message)
    requires k <= |front| && h == front + [m] && Expect(h).Some?
    requires var cut := Stripped(front[k..]); Expect(cut) == if cut == [] then Some([]) else Expect(front)
    ensures var cut := Stripped(h[k..]); Expect(cut) == if cut == [] then Some([]) else Expect(h)
  {
    var cut := Stripped(front[k..]);
    assert h[k..] == front[k..] + [m];
    StrippedAppend(front[k..], m);
    ExpectAppend(cut, m);
    ExpectAppend(front, m);
  }

  /**
    Cut a well-paired history anywhere and strip the leading tool messages: what
    is left is well paired and awaits the same calls, unless nothing is left.
   */
  lemma {:induction false} CutStaysPaired(h: seq<Message>, k: nat)
    requires k <= |h| && Expect(h).Some?
    ensures var cut := Stripped(h[k..]); Expect(cut) == if cut == [] then Some([]) else Expect(h)
    decreases |h|
  {
    if k < |h| {
      var front, m := h[..|h| - 1], h[|h| - 1];
      CutStaysPaired(front, k);
      assert h == front + [m];
      CutGrows(front, h, k, m);
    } else {
      assert h[k..] == [];
    }
  }

  /** A message that is neither a call nor a reply changes nothing for what follows it. */
  lemma {:induction false} PlainInFront(m: Message, h: seq<Message>)
    requires m.System? || m.User?
    ensures Expect([m] + h) == Expect(h)
  {
    if h == [] {
      assert [m] + h == [m];
      assert [m][..0] == [];
    } else {
      assert ([m] + h)[..|h|] == [m] + h[..|h| - 1];
      PlainInFront(m, h[..|h| - 1]);
    }
  }

  // ---- Old observations in a request ----

  const KEEP_RECENT := 5
  const FILE_VIEW_SIZE := 500

  predicate Contains(s: string, part: string) {
    |part| <= |s| && (part <= s || Contains(s[1..], part))
  }

  predicate IsObservation(content: string) { "Observation:" <= content }

  predicate IsFileView(content: string) { Contains(content, "File:") && |content| > FILE_VIEW_SIZE }

  /** An old observation becomes a tool message without an ID, an old file view a user message; their texts are left open. */
  function Elide(m: Message): Message {
    if !m.Tool? && !m.User? then m
    else if IsObservation(m.content) then Tool("", "elided")
    else if IsFileView(m.content) then User("elided")
    else m
  }

  /** A reply or user message that is an observation or a long file view. */
  predicate Lengthy(m: Message) { (m.Tool? || m.User?) && (IsObservation(m.content) || IsFileView(m.content)) }

  /** compressHistory: all but the last few messages, in a history that is long enough. */
  function Elided(h: seq<Message>): seq<Message> {
    if |h| <= KEEP_RECENT + 2 then h
    else seq(|h|, i requires 0 <= i < |h| => if i >= |h| - KEEP_RECENT then h[i] else Elide(h[i]))
  }

  /** The message keeps its role and the call it answers. */
  predicate Harmless(m: Message) {
    match m
    case Tool(id, content) => if IsObservation(content) then id == "" else !IsFileView(content)
    case User(content) => !IsObservation(content)
    case _ => true
  }

  ghost predicate ElisionIsHarmless(h: seq<Message>) {
    |h| <= KEEP_RECENT + 2 || forall i :: 0 <= i < |h| - KEEP_RECENT ==> Harmless(h[i])
  }

  /** A message that changes its role or its call no longer fits, and any other fits as before. */
  lemma FitsIffHarmless(h: seq<Message>, i: nat)
    requires |h| > KEEP_RECENT + 2 && i < |h| && Fits(h, i)
    ensures Fits(Elided(h), i) <==> i >= |h| - KEEP_RECENT || Harmless(h[i])
  {
    var h' := Elided(h);
    assert forall j: nat :: j < i ==> Owns(h', j, i) == Owns(h, j, i);
    assert forall j: nat :: j < i && Owns(h, j, i) ==> h'[j] == h[j];
    if h[i].Tool? {
      var j: nat :| j < i && Owns(h, j, i);
      assert Answers(h[j], i - j - 1, h[i]);
    }
  }

  /** Eliding keeps a well-paired history paired exactly when every message it may change is harmless. */
  lemma ElidedIsPairedIff(h: seq<Message>)
    requires Paired(h)
    ensures Paired(Elided(h)) <==> ElisionIsHarmless(h)
  {
    if |h| > KEEP_RECENT + 2 {
      forall i: nat | i < |h| ensures Fits(Elided(h), i) <==> i >= |h| - KEEP_RECENT || Harmless(h[i]) {
        FitsIffHarmless(h, i);
      }
      assert |Elided(h)| == |h|;
    }
  }

  /** The contents of user messages and replies play no part in what is awaited. */
  predicate SameShape(a: Message, b: Message) {
    match a
    case Tool(id, _) => b.Tool? && b.callId == id
    case User(_) => b.User?
    case _ => b == a
  }

  lemma {:induction false} SameExpect(a: seq<Message>, b: seq<Message>)
    requires |a| == |b| && forall i :: 0 <= i < |a| ==> SameShape(a[i], b[i])
    ensures Expect(a) == Expect(b)
  {
    if a != [] { SameExpect(a[..|a| - 1], b[..|b| - 1]); }
  }

  /** A harmless elision awaits the same calls. */
  lemma ElidedIsExpected(h: seq<Message>)
    requires ElisionIsHarmless(h)
    ensures Expect(Elided(h)) == Expect(h)
  {
    SameExpect(h, Elided(h));
  }

  /** A complete history stays complete exactly when its elision is harmless. */
  lemma ElidedIsCompleteIff(h: seq<Message>)
    requires Expect(h) == Some([])
    ensures Expect(Elided(h)) == Some([]) <==> ElisionIsHarmless(h)
  {
    if ElisionIsHarmless(h) {
      ElidedIsExpected(h);
    } else {
      ExpectIffPaired(h);
      ElidedIsPairedIff(h);
      ExpectIffPaired(Elided(h));
    }
  }

  /** A file read by a tool and then five messages old: its reply turns into a user message. */
  lemma ElisionWitness(c: ToolCall)
    ensures var h := [User("q"), Assistant("", [c]), Tool(c.id, FileView()), User("a"), User("b"), User("c"), User("d"), User("e")];
            Expect(h) == Some([]) && !Paired(Elided(h))
  {
    var h0 := [User("q")];
    var h1 := h0 + [Assistant("", [c])];
    var h2 := h1 + [Tool(c.id, FileView())];
    var h3 := h2 + [User("a")];
    var h4 := h3 + [User("b")];
    var h5 := h4 + [User("c")];
    var h6 := h5 + [User("d")];
    var h := h6 + [User("e")];
    ExpectAppend([], User("q"));
    ExpectAppend(h0, Assistant("", [c]));
    ExpectAppend(h1, Tool(c.id, FileView()));
    ExpectAppend(h2, User("a"));
    ExpectAppend(h3, User("b"));
    ExpectAppend(h4, User("c"));
    ExpectAppend(h5, User("d"));
    ExpectAppend(h6, User("e"));
    ExpectIffPaired(h);
    FileViewIsOne();
    assert h[2] == Tool(c.id, FileView()) && !Harmless(h[2]);
    ElidedIsPairedIff(h);
    assert h == [User("q"), Assistant("", [c]), Tool(c.id, FileView()), User("a"), User("b"), User("c"), User("d"), User("e")];
  }

  function FileView(): string { "File:" + seq(FILE_VIEW_SIZE, _ => 'x') }

  lemma FileViewIsOne()
    ensures IsFileView(FileView()) && !IsObservation(FileView())
  {
    assert FileView()[0] == 'F';
    assert "File:" <= FileView();
  }

  // ---- A session over time ----

  const KEEP_LAST := 4

  function Truncated(h: seq<Message>): seq<Message> { LastN(h, KEEP_LAST) }

  /** A session, with everything ever added to it and the calls that the request in progress has left to answer. */
  datatype State = State(session: seq<Message>, log: seq<Message>, pending: seq<ToolCall>)

  datatype Step =
    | Say(content: string)
    | Answer(content: string)
    | CallTools(content: string, calls: seq<ToolCall>)
    | Reply(content: string)
    | Truncate

  predicate Enabled(s: State, step: Step) {
    match step
    case Reply(_) => s.pending != []
    case CallTools(_, calls) => s.pending == [] && calls != []
    case Truncate => true
    case _ => s.pending == []
  }

  function Appended(s: State, m: Message, pending: seq<ToolCall>): State {
    State(s.session + [m], s.log + [m], pending)
  }

  function Next(s: State, step: Step): State
    requires Enabled(s, step)
  {
    match step
    case Say(content) => Appended(s, User(content), [])
    case Answer(content) => Appended(s, Assistant(content, []), [])
    case CallTools(content, calls) => Appended(s, Assistant(content, calls), calls)
    case Reply(content) => Appended(s, Tool(s.pending[0].id, content), s.pending[1..])
    case Truncate => s.(session := Truncated(s.session))
  }

  ghost predicate Run(states: seq<State>, steps: seq<Step>) {
    && |states| == |steps| + 1 && states[0] == State([], [], [])
    && forall i :: 0 <= i < |steps| ==> Enabled(states[i], steps[i]) && states[i + 1] == Next(states[i], steps[i])
  }

  /** The session is the end of a history that awaits exactly what the request has left. */
  ghost predicate Inv(s: State) {
    && Expect(s.log) == Some(s.pending)
    && EndOf(s.session, s.log)
  }

  /** One sequence is the end of the other. */
  ghost predicate EndOf(end: seq<Message>, all: seq<Message>) { |end| <= |all| && end == all[|all| - |end|..] }

  lemma AppendKeepsEnd(all: seq<Message>, end: seq<Message>, m: Message)
    requires EndOf(end, all)
    ensures EndOf(end + [m], all + [m])
  {
  }

  lemma TruncateKeepsEnd(all: seq<Message>, end: seq<Message>)
    requires EndOf(end, all)
    ensures EndOf(Truncated(end), all)
  {
    if |end| > KEEP_LAST { assert end[|end| - KEEP_LAST..] == all[|all| - KEEP_LAST..]; }
  }

  lemma AppendKeepsInv(s: State, m: Message, pending: seq<ToolCall>)
    requires Inv(s) && Follow(s.pending, m) == Some(pending)
    ensures Inv(Appended(s, m, pending))
  {
    ExpectAppend(s.log, m);
    AppendKeepsEnd(s.log, s.session, m);
  }

  lemma StepKeepsInv(s: State, step: Step)
    requires Inv(s) && Enabled(s, step)
    ensures Inv(Next(s, step))
  {
    match step
    case Say(content) => AppendKeepsInv(s, User(content), []);
    case Answer(content) => AppendKeepsInv(s, Assistant(content, []), []);
    case CallTools(content, calls) => AppendKeepsInv(s, Assistant(content, calls), calls);
    case Reply(content) => AppendKeepsInv(s, Tool(s.pending[0].id, content), s.pending[1..]);
    case Truncate => TruncateKeepsEnd(s.log, s.session);
  }

  lemma {:induction false} InvAlways(states: seq<State>, steps: seq<Step>, i: nat)
    requires Run(states, steps) && i < |states|
    ensures Inv(states[i])
  {
    if i > 0 {
      InvAlways(states, steps, i - 1);
      StepKeepsInv(states[i - 1], steps[i - 1]);
    }
  }

  /**
    However often and whenever the session is truncated, stripping its leading
    tool messages leaves a history in which every tool message answers its call,
    and which is complete whenever the request has no call left to answer.
   */
  lemma SessionsStayPaired(states: seq<State>, steps: seq<Step>, i: nat)
    requires Run(states, steps) && i < |states|
    ensures Paired(Stripped(states[i].session))
    ensures states[i].pending == [] ==> Expect(Stripped(states[i].session)) == Some([])
  {
    InvAlways(states, steps, i);
    var s := states[i];
    CutStaysPaired(s.log, |s.log| - |s.session|);
    ExpectIffPaired(Stripped(s.session));
  }

  // ---- Forced compression ----

  function Compressed(h: seq<Message>, note: string): seq<Message> {
    if |h| <= 4 then h else [User(note)] + h[|h| / 2..]
  }

  lemma EndOfEnd(h: seq<Message>, log: seq<Message>, k: nat)
    requires EndOf(h, log) && k <= |h|
    ensures h[k..] == log[|log| - |h| + k..]
  {
  }

  /**
    Its note keeps leading tool messages from being stripped.  For any session,
    however often truncated before: pairing survives exactly when the kept half
    does not begin with a tool message.
   */
  lemma CompressionIsPairedIff(h: seq<Message>, log: seq<Message>, note: string)
    requires EndOf(h, log) && Expect(log) == Some([]) && |h| > 4
    ensures Paired(Stripped(Compressed(h, note))) <==> !h[|h| / 2].Tool?
  {
    var kept := h[|h| / 2..];
    EndIsPaired(h, log, |h| / 2, kept);
    NotedIsPairedIff(kept, note);
    assert Stripped([User(note)] + kept) == [User(note)] + kept;
  }

  lemma EndIsPaired(h: seq<Message>, log: seq<Message>, k: nat, end: seq<Message>)
    requires EndOf(h, log) && Expect(log).Some? && k <= |h| && end == h[k..]
    ensures Expect(Stripped(end)).Some?
  {
    var c := |log| - |h| + k;
    EndOfEnd(h, log, k);
    assert end == log[c..];
    CutStaysPaired(log, c);
  }

  lemma NotedIsPairedIff(kept: seq<Message>, note: string)
    requires kept != [] && Expect(Stripped(kept)).Some?
    ensures Paired([User(note)] + kept) <==> !kept[0].Tool?
  {
    PlainInFront(User(note), kept);
    ExpectIffPaired([User(note)] + kept);
    if kept[0].Tool? { OrphanInFront(kept); }
  }

  lemma {:induction false} OrphanInFront(h: seq<Message>)
    requires h != [] && h[0].Tool?
    ensures Expect(h) == None
  {
    if |h| == 1 {
      assert h[..0] == [];
    } else {
      OrphanInFront(h[..|h| - 1]);
    }
  }

  /** A history on which it goes wrong: one question, one batch of four calls. */
  lemma CompressionWitness(c: ToolCall, note: string)
    ensures var h := [User("q"), Assistant("", [c, c, c, c]), Tool(c.id, ""), Tool(c.id, ""), Tool(c.id, ""), Tool(c.id, "")];
            Expect(h) == Some([]) && !Paired(Stripped(Compressed(h, note)))
  {
    var h0 := [User("q")];
    var h1 := h0 + [Assistant("", [c, c, c, c])];
    var h2 := h1 + [Tool(c.id, "")];
    var h3 := h2 + [Tool(c.id, "")];
    var h4 := h3 + [Tool(c.id, "")];
    var h := h4 + [Tool(c.id, "")];
    ExpectAppend([], User("q"));
    ExpectAppend(h0, Assistant("", [c, c, c, c]));
    ExpectAppend(h1, Tool(c.id, ""));
    ExpectAppend(h2, Tool(c.id, ""));
    ExpectAppend(h3, Tool(c.id, ""));
    ExpectAppend(h4, Tool(c.id, ""));
    assert h == [User("q"), Assistant("", [c, c, c, c]), Tool(c.id, ""), Tool(c.id, ""), Tool(c.id, ""), Tool(c.id, "")];
    CompressionIsPairedIff(h, h, note);
  }

  /** What stands in the note that compression leaves; its text is left open. */
  const NOTE := "note"

  /** A session compressed a number of times in a row. */
  function Squeezed(h: seq<Message>, n: nat): seq<Message> {
    if n == 0 then h else Compressed(Squeezed(h, n - 1), NOTE)
  }

  lemma CompressedKeepsNewest(h: seq<Message>, note: string, h': seq<Message>)
    requires |h| > 4 && h' == Compressed(h, note)
    ensures |h'| >= 4 && h'[|h'| - 3..] == h[|h| - 3..]
  {
    assert h'[1..] == h[|h| / 2..];
    assert forall k :: |h| - 3 <= k < |h| ==> h'[|h'| - |h| + k] == h[k];
  }

  /** The last three messages survive any number of compressions. */
  lemma {:induction false} SqueezedKeepsNewest(h: seq<Message>, n: nat)
    ensures var g := Squeezed(h, n);
            if |h| <= 4 then g == h else |g| >= 4 && g[|g| - 3..] == h[|h| - 3..]
  {
    if n > 0 {
      var g := Squeezed(h, n - 1);
      SqueezedKeepsNewest(h, n - 1);
      if |g| > 4 { CompressedKeepsNewest(g, NOTE, Squeezed(h, n)); }
    }
  }

  /** None of the compressions cuts between a call and its reply. */
  predicate CutsCleanly(h: seq<Message>, n: nat) {
    n == 0 || (CutsCleanly(h, n - 1) && (var g := Squeezed(h, n - 1); |g| > 4 ==> !g[|g| / 2].Tool?))
  }

  /** Stripping removes the tool messages at the front and nothing else. */
  lemma {:induction false} StrippedIsEnd(h: seq<Message>) returns (k: nat)
    ensures k <= |h| && Stripped(h) == h[k..] && (forall i :: 0 <= i < k ==> h[i].Tool?) && (k < |h| ==> !h[k].Tool?)
  {
    if h != [] && h[0].Tool? {
      var k' := StrippedIsEnd(h[1..]);
      k := k' + 1;
      assert h[1..][k'..] == h[k..];
      forall i | 0 <= i < k ensures h[i].Tool? {
        if i > 0 { assert h[i] == h[1..][i - 1]; }
      }
    } else {
      k := 0;
    }
  }

  lemma CleanEnd(h: seq<Message>, m: nat, kept: seq<Message>)
    requires Expect(Stripped(h)) == Some([]) && m < |h| && !h[m].Tool? && kept == h[m..]
    ensures Expect(kept) == Some([])
  {
    var s := Stripped(h);
    var k := StrippedIsEnd(h);
    KeptIsEnd(h, k, m, s, kept);
    CutStaysPaired(s, m - k);
    assert kept[0] == h[m];
  }

  /** A clean compression of a session leaves no call unanswered. */
  lemma CompressedIsComplete(h: seq<Message>, note: string)
    requires Expect(Stripped(h)) == Some([]) && (|h| > 4 ==> !h[|h| / 2].Tool?)
    ensures Expect(Stripped(Compressed(h, note))) == Some([])
  {
    if |h| > 4 {
      var m := |h| / 2;
      var kept := h[m..];
      CleanEnd(h, m, kept);
      PlainInFront(User(note), kept);
    }
  }

  lemma KeptIsEnd(h: seq<Message>, k: nat, m: nat, s: seq<Message>, kept: seq<Message>)
    requires k <= |h| && s == h[k..] && m < |h| && kept == h[m..] && !h[m].Tool?
    requires forall i :: 0 <= i < k ==> h[i].Tool?
    ensures k <= m && kept == s[m - k..]
  {
  }

  lemma {:induction false} SqueezedIsComplete(h: seq<Message>, n: nat)
    requires Expect(Stripped(h)) == Some([]) && CutsCleanly(h, n)
    ensures Expect(Stripped(Squeezed(h, n))) == Some([])
  {
    if n > 0 {
      SqueezedIsComplete(h, n - 1);
      CompressedIsComplete(Squeezed(h, n - 1), NOTE);
    }
  }

  // ---- What one turn adds ----

  /**
    One iteration: how often the request was too long and the session was
    compressed for a retry, what the model replied in the end, and what the tools
    it called gave; a missing result is empty.
   */
  datatype Response =
    | Failed(squeezes: nat)
    | Response(content: string, calls: seq<ToolCall>, results: seq<string>, squeezes: nat)

  function ResultAt(results: seq<string>, k: nat): string { if k < |results| then results[k] else "" }

  /** A history with the replies to the first n calls. */
  function Replied(h: seq<Message>, calls: seq<ToolCall>, results: seq<string>, n: nat): seq<Message>
    requires n <= |calls|
  {
    if n == 0 then h else Replied(h, calls, results, n - 1) + [Tool(calls[n - 1].id, ResultAt(results, n - 1))]
  }

  lemma {:induction false} RepliesAreExact(h: seq<Message>, calls: seq<ToolCall>, results: seq<string>, n: nat)
    requires n <= |calls|
    ensures var h' := Replied(h, calls, results, n);
            && |h'| == |h| + n && h'[..|h|] == h
            && forall k :: 0 <= k < n ==> h'[|h| + k] == Tool(calls[k].id, ResultAt(results, k))
  {
    if n > 0 { RepliesAreExact(h, calls, results, n - 1); }
  }

  lemma {:induction false} RepliesAreExpected(h: seq<Message>, calls: seq<ToolCall>, results: seq<string>, n: nat)
    requires n <= |calls| && Expect(h) == Some(calls)
    ensures Expect(Replied(h, calls, results, n)) == Some(calls[n..])
  {
    if n == 0 {
      assert calls[0..] == calls;
    } else {
      RepliesAreExpected(h, calls, results, n - 1);
      ExpectAppend(Replied(h, calls, results, n - 1), Tool(calls[n - 1].id, ResultAt(results, n - 1)));
      assert calls[n - 1..][1..] == calls[n..];
    }
  }

  predicate CallsTools(r: Response) { r.Response? && r.calls != [] }

  function CallsIn(r: Response): seq<ToolCall> { if r.Response? then r.calls else [] }

  function ResultsIn(r: Response): seq<string> { if r.Response? then r.results else [] }

  /** What the model is told when the detector warns. */
  function Warnings(det: Detection): seq<Message> { if det.severity == Calm then [] else [User(det.kind)] }

  /** A history after an iteration: with its assistant message and all its replies, if it called tools. */
  function AfterBatch(h: seq<Message>, r: Response): seq<Message> {
    if CallsTools(r) then Replied(h + [Assistant(r.content, r.calls)], r.calls, r.results, |r.calls|) else h
  }

  /** A session after an iteration: compressed as often as needed, then with the batch. */
  function AfterIteration(h: seq<Message>, r: Response): seq<Message> { AfterBatch(Squeezed(h, r.squeezes), r) }

  /** A session after n iterations. */
  function AfterTurn(h: seq<Message>, responses: seq<Response>, n: nat): seq<Message>
    requires n <= |responses|
  {
    if n == 0 then h else AfterIteration(AfterTurn(h, responses, n - 1), responses[n - 1])
  }

  /** A batch is the assistant message and exactly its replies in order. */
  lemma BatchIsExact(h: seq<Message>, r: Response)
    requires CallsTools(r)
    ensures var h' := AfterBatch(h, r);
            && |h'| == |h| + 1 + |r.calls| && h'[..|h| + 1] == h + [Assistant(r.content, r.calls)]
            && forall k :: 0 <= k < |r.calls| ==> h'[|h| + 1 + k] == Tool(r.calls[k].id, ResultAt(r.results, k))
  {
    RepliesAreExact(h + [Assistant(r.content, r.calls)], r.calls, r.results, |r.calls|);
  }

  /** A batch leaves no call unanswered. */
  lemma BatchAnswersAll(h: seq<Message>, r: Response)
    requires Expect(h) == Some([])
    ensures Expect(AfterBatch(h, r)) == Some([])
  {
    if CallsTools(r) {
      ExpectAppend(h, Assistant(r.content, r.calls));
      RepliesAreExpected(h + [Assistant(r.content, r.calls)], r.calls, r.results, |r.calls|);
      assert r.calls[|r.calls|..] == [];
    }
  }

  lemma {:induction false} StrippedReplies(h: seq<Message>, calls: seq<ToolCall>, results: seq<string>, n: nat)
    requires n <= |calls| && Stripped(h) != []
    ensures Stripped(Replied(h, calls, results, n)) == Replied(Stripped(h), calls, results, n)
    ensures Stripped(Replied(h, calls, results, n)) != []
  {
    if n > 0 {
      StrippedReplies(h, calls, results, n - 1);
      StrippedAppend(Replied(h, calls, results, n - 1), Tool(calls[n - 1].id, ResultAt(results, n - 1)));
    }
  }

  /** Stripping before a batch or after it comes to the same. */
  lemma StrippedBatch(h: seq<Message>, r: Response)
    ensures Stripped(AfterBatch(h, r)) == AfterBatch(Stripped(h), r)
  {
    if CallsTools(r) {
      StrippedAppend(h, Assistant(r.content, r.calls));
      StrippedReplies(h + [Assistant(r.content, r.calls)], r.calls, r.results, |r.calls|);
    }
  }

  /** Whatever truncation left at the front of a session, a batch leaves no call unanswered. */
  lemma BatchIsComplete(h: seq<Message>, r: Response)
    requires Expect(Stripped(h)) == Some([])
    ensures Expect(Stripped(AfterBatch(h, r))) == Some([])
  {
    StrippedBatch(h, r);
    BatchAnswersAll(Stripped(h), r);
  }

  /** No compression of the first n iterations cuts between a call and its reply. */
  predicate TurnCutsCleanly(h: seq<Message>, responses: seq<Response>, n: nat)
    requires n <= |responses|
  {
    n == 0 || (TurnCutsCleanly(h, responses, n - 1) && CutsCleanly(AfterTurn(h, responses, n - 1), responses[n - 1].squeezes))
  }

  /** A turn whose compressions cut cleanly leaves no call in the session unanswered. */
  lemma {:induction false} TurnIsComplete(h: seq<Message>, responses: seq<Response>, n: nat)
    requires Expect(Stripped(h)) == Some([]) && n <= |responses| && TurnCutsCleanly(h, responses, n)
    ensures Expect(Stripped(AfterTurn(h, responses, n))) == Some([])
  {
    if n > 0 {
      var before, r := AfterTurn(h, responses, n - 1), responses[n - 1];
      TurnIsComplete(h, responses, n - 1);
      SqueezedIsComplete(before, r.squeezes);
      BatchIsComplete(Squeezed(before, r.squeezes), r);
    }
  }

  predicate NoSqueezes(responses: seq<Response>, n: nat)
    requires n <= |responses|
  {
    n == 0 || (NoSqueezes(responses, n - 1) && responses[n - 1].squeezes == 0)
  }

  // ---- A turn is a run of the session machine ----

  /** What a step makes of a state, if it can be taken there. */
  function Taken(s: State, step: Step): Option<State> {
    if Enabled(s, step) then Some(Next(s, step)) else None
  }

  /** The replies to the first n calls, one step each. */
  lemma {:induction false} RepliesAreSteps(s: State, calls: seq<ToolCall>, results: seq<string>, n: nat)
    returns (steps: seq<Step>, end: State)
    requires n <= |calls| && s.pending == calls
    ensures Leads(Taken, s, steps, end)
    ensures end == State(Replied(s.session, calls, results, n), Replied(s.log, calls, results, n), calls[n..])
  {
    if n == 0 {
      assert calls[0..] == calls;
      steps, end := [], s;
    } else {
      var mid;
      steps, mid := RepliesAreSteps(s, calls, results, n - 1);
      var step := Reply(ResultAt(results, n - 1));
      assert mid.pending[0] == calls[n - 1] && mid.pending[1..] == calls[n..];
      Then(Taken, s, steps, mid, step, Next(mid, step));
      steps, end := steps + [step], Next(mid, step);
    }
  }

  /** What an iteration does to a session is a run of the machine: the call and its replies. */
  lemma BatchIsRun(s: State, r: Response) returns (steps: seq<Step>, end: State)
    requires s.pending == []
    ensures Leads(Taken, s, steps, end)
    ensures end == State(AfterBatch(s.session, r), AfterBatch(s.log, r), [])
  {
    if CallsTools(r) {
      var call := CallTools(r.content, r.calls);
      var rest;
      rest, end := RepliesAreSteps(Next(s, call), r.calls, r.results, |r.calls|);
      steps := [call] + rest;
      assert steps[1..] == rest && r.calls[|r.calls|..] == [];
    } else {
      steps, end := [], s;
    }
  }

  /** So is a whole turn without compressions, as RunLLMIteration leaves the session. */
  lemma {:induction false} TurnIsRun(s: State, responses: seq<Response>, n: nat) returns (steps: seq<Step>, end: State)
    requires s.pending == [] && n <= |responses| && NoSqueezes(responses, n)
    ensures Leads(Taken, s, steps, end)
    ensures end == State(AfterTurn(s.session, responses, n), AfterTurn(s.log, responses, n), [])
  {
    if n == 0 {
      steps, end := [], s;
    } else {
      var mid, last;
      steps, mid := TurnIsRun(s, responses, n - 1);
      last, end := BatchIsRun(mid, responses[n - 1]);
      LeadsOn(Taken, s, steps, mid, last, end);
      steps := steps + last;
    }
  }

  /** What the detector has seen after the first n calls of an iteration. */
  function Seen(before: seq<Call>, calls: seq<ToolCall>, n: nat): seq<Call>
    requires n <= |calls|
  {
    if n == 0 then before else Seen(before, calls, n - 1) + [Call(calls[n - 1].name, calls[n - 1].argsHash)]
  }

  /** And what it knows of their results. */
  function Got(before: seq<Outcome>, calls: seq<ToolCall>, results: seq<string>, n: nat): seq<Outcome>
    requires n <= |calls|
  {
    if n == 0 then before else Got(before, calls, results, n - 1) + [Outcome(calls[n - 1].argsHash, ResultAt(results, n - 1))]
  }

  /** Every tool call of the first n iterations. */
  function CallsOf(responses: seq<Response>, n: nat): seq<Call>
    requires n <= |responses|
  {
    if n == 0 then [] else Seen(CallsOf(responses, n - 1), CallsIn(responses[n - 1]), |CallsIn(responses[n - 1])|)
  }

  predicate Terminal(name: string) { name == "message" || name == "complete_bootstrap" }

  /** Among the first n calls: whether all are terminal, and whether one completes the bootstrap. */
  predicate OnlyTerminal(calls: seq<ToolCall>, n: nat)
    requires n <= |calls|
  {
    n == 0 || (OnlyTerminal(calls, n - 1) && Terminal(calls[n - 1].name))
  }

  predicate Bootstraps(calls: seq<ToolCall>, n: nat)
    requires n <= |calls|
  {
    n > 0 && (Bootstraps(calls, n - 1) || calls[n - 1].name == "complete_bootstrap")
  }

  /** How a turn ends before its iterations run out; the texts produced in the last two cases are left open. */
  datatype End = Error | Answered(content: string) | TerminalReply(bootstrapped: bool) | LoopStopped

  /**
    How iteration n ends the turn, if it does.  The turn goes on only after tools
    were called that are not all terminal, and all calls so far are safe.
   */
  ghost function StopAfter(responses: seq<Response>, n: nat): Option<End>
    requires n < |responses|
  {
    var r := responses[n];
    if r.Failed? then Some(Error)
    else if r.calls == [] then Some(Answered(r.content))
    else if OnlyTerminal(r.calls, |r.calls|) then Some(TerminalReply(Bootstraps(r.calls, |r.calls|)))
    else if !Safe(CallsOf(responses, n + 1)) then Some(LoopStopped)
    else None
  }

  lemma {:induction false} OnlyTerminalIff(calls: seq<ToolCall>, n: nat)
    requires n <= |calls|
    ensures OnlyTerminal(calls, n) <==> forall k :: 0 <= k < n ==> Terminal(calls[k].name)
    ensures Bootstraps(calls, n) <==> exists k :: 0 <= k < n && calls[k].name == "complete_bootstrap"
  {
    if n > 0 { OnlyTerminalIff(calls, n - 1); }
  }

  /** What each way of ending a turn says about the last reply and all calls before it. */
  lemma TurnEndsBy(responses: seq<Response>, n: nat, end: End)
    requires n < |responses|
    ensures StopAfter(responses, n) == Some(end) <==>
            var r := responses[n];
            match end
            case Error => r.Failed?
            case Answered(content) => !r.Failed? && r.calls == [] && content == r.content
            case TerminalReply(bootstrapped) =>
              && !r.Failed? && r.calls != [] && (forall k :: 0 <= k < |r.calls| ==> Terminal(r.calls[k].name))
              && (bootstrapped <==> exists k :: 0 <= k < |r.calls| && r.calls[k].name == "complete_bootstrap")
            case LoopStopped =>
              && !r.Failed? && (exists k :: 0 <= k < |r.calls| && !Terminal(r.calls[k].name))
              && !Safe(CallsOf(responses, n + 1))
  {
    if !responses[n].Failed? { OnlyTerminalIff(responses[n].calls, |responses[n].calls|); }
  }

  ghost predicate StopsOf(responses: seq<Response>, stops: seq<Option<End>>) {
    && |stops| == |responses|
    && forall n {:trigger StopAfter(responses, n)} :: 0 <= n < |responses| ==> stops[n] == StopAfter(responses, n)
  }

  ghost function AllStops(responses: seq<Response>): (stops: seq<Option<End>>)
    ensures StopsOf(responses, stops)
  {
    seq(|responses|, n requires 0 <= n < |responses| => StopAfter(responses, n))
  }

  /** Nothing stopped the first n iterations before the last of them, which stopped so. */
  ghost predicate Reached(stops: seq<Option<End>>, n: nat, end: Option<End>)
    requires n <= |stops|
  {
    if n == 0 then end == None else Reached(stops, n - 1, None) && stops[n - 1] == end
  }

  lemma {:induction false} ReachedEach(stops: seq<Option<End>>, n: nat, end: Option<End>)
    requires n <= |stops| && Reached(stops, n, end)
    ensures forall i :: 0 <= i < n - 1 ==> stops[i] == None
  {
    if n > 0 { ReachedEach(stops, n - 1, None); }
  }

  /** Every identical call occurred fewer than thirty times in all, and fewer than twenty times among the last thirty. */
  ghost predicate WithinBounds(calls: seq<Call>) {
    && (forall c :: multiset(calls)[c] < CIRCUIT_BREAKER)
    && (forall c :: multiset(LastN(calls, HISTORY_SIZE))[c] < CRITICAL_THRESHOLD)
  }

  /** Equal calls have equal hashes. */
  lemma {:induction false} CallsAreHashes(calls: seq<Call>, c: Call)
    ensures multiset(calls)[c] <= Total(calls, c.argsHash)
  {
    if calls != [] {
      var rest, last := calls[..|calls| - 1], calls[|calls| - 1];
      CallsAreHashes(rest, c);
      assert calls == rest + [last] && Hashes(calls) == Hashes(rest) + [last.argsHash];
    }
  }

  /** What going on means for any one call. */
  lemma NoCallRunsAway(responses: seq<Response>, n: nat)
    requires n < |responses| && StopAfter(responses, n) == None
    ensures WithinBounds(CallsOf(responses, n + 1))
  {
    var calls := CallsOf(responses, n + 1);
    forall c ensures multiset(calls)[c] < CIRCUIT_BREAKER {
      CallsAreHashes(calls, c);
      assert Total(calls, c.argsHash) < CIRCUIT_BREAKER;
    }
    forall c ensures multiset(LastN(calls, HISTORY_SIZE))[c] < CRITICAL_THRESHOLD {
      assert Recent(calls, c) < CRITICAL_THRESHOLD;
    }
  }

  // ---- The turn itself ----

  datatype Session = Session(messages: seq<Message>, summary: string)

  class SessionManager {
    var sessions: map<string, Session>

    constructor ()
      ensures sessions == map[]
    {
      sessions := map[];
    }

    function GetHistory(key: string): (h: seq<Message>)
      reads this
      ensures key !in sessions ==> h == []
    {
      if key in sessions then sessions[key].messages else []
    }

    method AddFullMessage(key: string, m: Message)
      modifies this
      ensures GetHistory(key) == old(GetHistory(key)) + [m]
      ensures sessions == old(sessions)[key := Session(GetHistory(key), if key in old(sessions) then old(sessions)[key].summary else "")]
    {
      var session := if key in sessions then sessions[key] else Session([], "");
      sessions := sessions[key := session.(messages := session.messages + [m])];
    }

    method SetHistory(key: string, history: seq<Message>)
      modifies this
      ensures sessions == if key in old(sessions) then old(sessions)[key := old(sessions)[key].(messages := history)] else old(sessions)
    {
      if key in sessions {
        sessions := sessions[key := sessions[key].(messages := history)];
      }
    }

    method SummarizeAndTruncate(key: string, summary: string, keepLast: int)
      modifies this
      ensures key !in old(sessions) ==> sessions == old(sessions)
      ensures key in old(sessions) ==>
                sessions == old(sessions)[key := Session(LastN(old(GetHistory(key)), if keepLast <= 0 then 0 else keepLast), summary)]
    {
      if key !in sessions { return; }
      var h := sessions[key].messages;
      if keepLast <= 0 {
        sessions := sessions[key := Session([], summary)];
        assert h[|h|..] == [];
        return;
      }
      sessions := sessions[key := Session(if |h| > keepLast then h[|h| - keepLast..] else h, summary)];
    }
  }

  /** The request that is answered in the end: the one sent, or the one built after the last compression. */
  function Asked(sent: seq<Message>, h: seq<Message>, r: Response, prompt: string): seq<Message> {
    if r.squeezes == 0 then sent else [System(prompt)] + Elided(Stripped(Squeezed(h, r.squeezes)))
  }

  class AgentLoop {
    const sessions: SessionManager
    const maxIterations: nat
    const prompt: string

    constructor (sessions: SessionManager, maxIterations: nat, prompt: string)
      ensures this.sessions == sessions && this.maxIterations == maxIterations && this.prompt == prompt
    {
      this.sessions, this.maxIterations, this.prompt := sessions, maxIterations, prompt;
    }

    /** The loop of compressHistory. */
    method CompressHistory(history: seq<Message>) returns (compressed: seq<Message>)
      ensures compressed == Elided(history)
      ensures |compressed| == |history|
      ensures forall k :: 0 <= k < |history| ==>
                compressed[k] == if |history| <= KEEP_RECENT + 2 || k >= |history| - KEEP_RECENT || !Lengthy(history[k]) then history[k]
                                 else if IsObservation(history[k].content) then Tool("", "elided") else User("elided")
    {
      if |history| <= KEEP_RECENT + 2 { return history; }
      var keepFrom := |history| - KEEP_RECENT;
      compressed := [];
      for i := 0 to |history|
        invariant |compressed| == i
        invariant forall k :: 0 <= k < i ==> compressed[k] == if k >= keepFrom then history[k] else Elide(history[k])
      {
        compressed := compressed + [if i >= keepFrom then history[i] else Elide(history[i])];
      }
    }

    method BuildMessages(history: seq<Message>, prompt: string, current: string) returns (messages: seq<Message>)
      ensures messages == [System(prompt)] + Elided(Stripped(history)) + (if current != "" then [User(current)] else [])
      ensures Expect(Stripped(history)) == Some([]) ==>
                (Expect(messages) == Some([]) <==> ElisionIsHarmless(Stripped(history)))
    {
      var rest := history;
      while |rest| > 0 && rest[0].Tool?
        invariant Stripped(rest) == Stripped(history)
      {
        rest := rest[1..];
      }
      if Expect(rest) == Some([]) { ElidedIsCompleteIff(rest); }
      rest := CompressHistory(rest);
      messages := [System(prompt)] + rest;
      PlainInFront(System(prompt), rest);
      if current != "" {
        ExpectAppend(messages, User(current));
        messages := messages + [User(current)];
      }
    }

    method ForceCompression(key: string)
      modifies sessions
      ensures sessions.GetHistory(key) == Compressed(old(sessions.GetHistory(key)), NOTE)
      ensures var h, h' := old(sessions.GetHistory(key)), sessions.GetHistory(key);
              && (|h| <= 4 ==> h' == h)
              && (|h| > 4 ==> |h'| == 1 + |h| - |h| / 2 && h'[0] == User(NOTE) && h'[1..] == h[|h| / 2..])
    {
      var history := sessions.GetHistory(key);
      if |history| <= 4 { return; }
      var dropCount := |history| / 2;
      var kept := history[dropCount..];
      sessions.SetHistory(key, [User(NOTE)] + kept);
    }

    /** The retry loop: each request that is too long compresses the session and is built anew. */
    method Ask(key: string, r: Response, sent: seq<Message>) returns (asked: seq<Message>)
      modifies sessions
      ensures sessions.GetHistory(key) == Squeezed(old(sessions.GetHistory(key)), r.squeezes)
      ensures asked == Asked(sent, old(sessions.GetHistory(key)), r, prompt)
      ensures asked == if r.squeezes == 0 then sent else [System(prompt)] + Elided(Stripped(sessions.GetHistory(key)))
    {
      asked := sent;
      for retry := 0 to r.squeezes
        invariant sessions.GetHistory(key) == Squeezed(old(sessions.GetHistory(key)), retry)
        invariant asked == if retry == 0 then sent
                           else [System(prompt)] + Elided(Stripped(Squeezed(old(sessions.GetHistory(key)), retry)))
      {
        ForceCompression(key);
        asked := BuildMessages(sessions.GetHistory(key), prompt, "");
      }
    }

    /** One call: tell the detector before and after it, and append the reply to the session. */
    method RunTool(key: string, tc: ToolCall, content: string, detector: ToolLoopDetector) returns (m: Message)
      requires detector.Valid()
      modifies sessions, detector
      ensures m == Tool(tc.id, content)
      ensures sessions.GetHistory(key) == old(sessions.GetHistory(key)) + [m]
      ensures detector.Valid() && detector.allCalls == old(detector.allCalls) + [Call(tc.name, tc.argsHash)]
      ensures detector.allOutcomes == old(detector.allOutcomes) + [Outcome(tc.argsHash, content)]
    {
      detector.Record(tc.name, tc.argsHash);
      detector.RecordOutcome(tc.argsHash, content);
      m := Tool(tc.id, content);
      sessions.AddFullMessage(key, m);
    }

    /** The inner loop of an iteration: run each call, tell the detector, append the reply. */
    method RunTools(key: string, calls: seq<ToolCall>, results: seq<string>, detector: ToolLoopDetector, before: seq<Message>)
      returns (messages: seq<Message>, onlyTerminal: bool, bootstrapped: bool)
      requires detector.Valid()
      modifies sessions, detector
      ensures detector.Valid() && detector.allCalls == Seen(old(detector.allCalls), calls, |calls|)
      ensures detector.allOutcomes == Got(old(detector.allOutcomes), calls, results, |calls|)
      ensures messages == Replied(before, calls, results, |calls|)
      ensures sessions.GetHistory(key) == Replied(old(sessions.GetHistory(key)), calls, results, |calls|)
      ensures onlyTerminal == OnlyTerminal(calls, |calls|) && bootstrapped == Bootstraps(calls, |calls|)
    {
      messages, onlyTerminal, bootstrapped := before, true, false;
      var j := 0;
      while j < |calls|
        invariant 0 <= j <= |calls| && detector.Valid()
        invariant detector.allCalls == Seen(old(detector.allCalls), calls, j)
        invariant detector.allOutcomes == Got(old(detector.allOutcomes), calls, results, j)
        invariant messages == Replied(before, calls, results, j)
        invariant sessions.GetHistory(key) == Replied(old(sessions.GetHistory(key)), calls, results, j)
        invariant onlyTerminal == OnlyTerminal(calls, j) && bootstrapped == Bootstraps(calls, j)
      {
        var tc := calls[j];
        if !Terminal(tc.name) { onlyTerminal := false; }
        if tc.name == "complete_bootstrap" { bootstrapped := true; }
        var m := RunTool(key, tc, ResultAt(results, j), detector);
        messages := messages + [m];
        j := j + 1;
      }
    }

    /** The rest of an iteration, once the model has replied: the next request, or how the turn ends. */
    method Follow(key: string, i: nat, responses: seq<Response>, ghost stops: seq<Option<End>>,
                  detector: ToolLoopDetector, asked: seq<Message>)
      returns (stop: Option<End>, messages: seq<Message>)
      requires i < |responses| && StopsOf(responses, stops) && detector.Valid() && detector.allCalls == CallsOf(responses, i)
      modifies sessions, detector
      ensures sessions.GetHistory(key) == AfterBatch(old(sessions.GetHistory(key)), responses[i])
      ensures detector.Valid() && detector.allCalls == CallsOf(responses, i + 1)
      ensures detector.allOutcomes == Got(old(detector.allOutcomes), CallsIn(responses[i]), ResultsIn(responses[i]), |CallsIn(responses[i])|)
      ensures stop.None? ==> messages == AfterBatch(asked, responses[i]) + Warnings(Verdict(detector.allCalls, detector.allOutcomes))
      ensures stop.None? && Expect(asked) == Some([]) ==> Expect(messages) == Some([])
      ensures stop == stops[i]
    {
      assert stops[i] == StopAfter(responses, i);
      var r := responses[i];
      if r.Failed? { return Some(Error), asked; }
      if |r.calls| == 0 { return Some(Answered(r.content)), asked; }
      sessions.AddFullMessage(key, Assistant(r.content, r.calls));
      var onlyTerminal, bootstrapped;
      messages, onlyTerminal, bootstrapped := RunTools(key, r.calls, r.results, detector, asked + [Assistant(r.content, r.calls)]);
      if onlyTerminal { return Some(TerminalReply(bootstrapped)), messages; }
      var det := detector.Check();
      CriticalIffUnsafe(detector.allCalls, detector.allOutcomes);
      if det.severity == Critical { return Some(LoopStopped), messages; }
      if Expect(asked) == Some([]) { BatchAnswersAll(asked, r); }
      if det.severity != Calm {
        ExpectAppend(messages, User(det.kind));
        messages := messages + [User(det.kind)];
      }
      stop := None;
    }

    /** One iteration: ask, retrying if need be, then follow what the model says. */
    method RunIteration(key: string, i: nat, responses: seq<Response>, ghost stops: seq<Option<End>>,
                        detector: ToolLoopDetector, sent: seq<Message>)
      returns (stop: Option<End>, messages: seq<Message>)
      requires i < |responses| && StopsOf(responses, stops) && detector.Valid() && detector.allCalls == CallsOf(responses, i)
      modifies sessions, detector
      ensures sessions.GetHistory(key) == AfterIteration(old(sessions.GetHistory(key)), responses[i])
      ensures detector.Valid() && detector.allCalls == CallsOf(responses, i + 1)
      ensures stop.None? && Expect(Asked(sent, old(sessions.GetHistory(key)), responses[i], prompt)) == Some([])
              ==> Expect(messages) == Some([])
      ensures stop == stops[i]
    {
      var asked := Ask(key, responses[i], sent);
      stop, messages := Follow(key, i, responses, stops, detector, asked);
    }

    /** The loop of the turn, with the way each iteration would end it given as a list. */
    method Iterate(start: seq<Message>, key: string, responses: seq<Response>, ghost stops: seq<Option<End>>)
      returns (end: Option<End>, iteration: nat, next: seq<Message>)
      requires |responses| >= maxIterations && StopsOf(responses, stops)
      modifies sessions
      ensures iteration <= maxIterations && (end.None? ==> iteration == maxIterations)
      ensures sessions.GetHistory(key) == AfterTurn(old(sessions.GetHistory(key)), responses, iteration)
      ensures Reached(stops, iteration, end)
      ensures end == None && Expect(start) == Some([]) && NoSqueezes(responses, iteration) ==> Expect(next) == Some([])
    {
      iteration, end, next := 0, None, start;
      var detector := new ToolLoopDetector();
      while iteration < maxIterations && end == None
        invariant 0 <= iteration <= maxIterations
        invariant fresh(detector) && detector.Valid() && detector.allCalls == CallsOf(responses, iteration)
        invariant end == None && Expect(start) == Some([]) && NoSqueezes(responses, iteration) ==> Expect(next) == Some([])
        invariant sessions.GetHistory(key) == AfterTurn(old(sessions.GetHistory(key)), responses, iteration)
        invariant Reached(stops, iteration, end)
        decreases maxIterations - iteration
      {
        end, next := RunIteration(key, iteration, responses, stops, detector, next);
        iteration := iteration + 1;
      }
    }

    /**
      The turn, against any model and any tools: the session gains one batch per
      iteration that called tools and is compressed where the model demands it;
      only after safe iterations is there another, so that no call has been made too
      often when the model is asked again; and without compressions every
      request is complete.
     */
    method RunLLMIteration(start: seq<Message>, key: string, responses: seq<Response>)
      returns (end: Option<End>, iteration: nat, next: seq<Message>)
      requires |responses| >= maxIterations
      modifies sessions
      ensures iteration <= maxIterations && (end.None? ==> iteration == maxIterations)
      ensures sessions.GetHistory(key) == AfterTurn(old(sessions.GetHistory(key)), responses, iteration)
      ensures forall i :: 0 <= i < iteration - 1 ==> StopAfter(responses, i) == None
      ensures if iteration > 0 then StopAfter(responses, iteration - 1) == end else end == None
      ensures forall i :: 0 < i < iteration ==> WithinBounds(CallsOf(responses, i))
      ensures end == None && Expect(start) == Some([]) && NoSqueezes(responses, iteration) ==> Expect(next) == Some([])
    {
      ghost var stops := AllStops(responses);
      end, iteration, next := Iterate(start, key, responses, stops);
      ReachedEach(stops, iteration, end);
      forall i | 0 <= i < iteration ensures StopAfter(responses, i) == stops[i] {}
      forall i | 0 < i < iteration ensures WithinBounds(CallsOf(responses, i)) {
        assert StopAfter(responses, i - 1) == None;
        NoCallRunsAway(responses, i - 1);
      }
    }
  }
}
