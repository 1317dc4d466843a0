/**
  The tool-loop detector of one agent turn.  It keeps two windows of thirty
  entries and a map of totals; the specification states the four rules over the
  whole history.  Argument and result hashes are opaque strings: equal hashes
  stand for equal calls and equal results.
 */
module LoopDetect {
  import opened Sequences

  const HISTORY_SIZE := 30
  const WARN_THRESHOLD := 10
  const CRITICAL_THRESHOLD := 20
  const CIRCUIT_BREAKER := 30
  const NO_PROGRESS_CONSEC := 5
  const PING_PONG_LENGTH := 8

  datatype Call = Call(tool: string, argsHash: string)
  datatype Outcome = Outcome(argsHash: string, resultHash: string)

  datatype Severity = Calm | Warning | Critical
  {
    function Rank(): nat { match this case Calm => 0 case Warning => 1 case Critical => 2 }
  }

  datatype Detection = Detection(severity: Severity, kind: string)

  const NOTHING := Detection(Calm, "")

  // ---- The four rules, over everything that happened ----

  function Hashes(calls: seq<Call>): seq<string> {
    seq(|calls|, i requires 0 <= i < |calls| => calls[i].argsHash)
  }

  /** How often a hash was called in the whole turn. */
  function Total(calls: seq<Call>, h: string): nat { multiset(Hashes(calls))[h] }

  /** How often a call occurs among the last thirty. */
  function Recent(calls: seq<Call>, c: Call): nat { multiset(LastN(calls, HISTORY_SIZE))[c] }

  ghost predicate Tripped(calls: seq<Call>) { exists h :: Total(calls, h) >= CIRCUIT_BREAKER }

  ghost predicate Repeats(calls: seq<Call>, times: nat) { exists c :: Recent(calls, c) >= times }

  ghost predicate NoProgress(outcomes: seq<Outcome>) {
    var n := |outcomes|;
    n >= NO_PROGRESS_CONSEC && forall i :: n - NO_PROGRESS_CONSEC <= i < n ==> outcomes[i] == outcomes[n - 1]
  }

  /** Two different hashes take turns over the last eight calls. */
  ghost predicate PingPong(calls: seq<Call>) {
    var n := |calls|;
    && n >= PING_PONG_LENGTH
    && calls[n - 1].argsHash != calls[n - 2].argsHash
    && forall i :: n - PING_PONG_LENGTH + 2 <= i < n ==> calls[i].argsHash == calls[i - 2].argsHash
  }

  ghost function CircuitBreakerRule(calls: seq<Call>): Detection {
    if Tripped(calls) then Detection(Critical, "circuit_breaker") else NOTHING
  }

  ghost function GenericRepeatRule(calls: seq<Call>): Detection {
    if Repeats(calls, CRITICAL_THRESHOLD) then Detection(Critical, "generic_repeat")
    else if Repeats(calls, WARN_THRESHOLD) then Detection(Warning, "generic_repeat")
    else NOTHING
  }

  ghost function NoProgressRule(outcomes: seq<Outcome>): Detection {
    if NoProgress(outcomes) then Detection(Warning, "no_progress") else NOTHING
  }

  ghost function PingPongRule(calls: seq<Call>): Detection {
    if PingPong(calls) then Detection(Warning, "ping_pong") else NOTHING
  }

  ghost function Rules(calls: seq<Call>, outcomes: seq<Outcome>): seq<Detection> {
    [CircuitBreakerRule(calls), GenericRepeatRule(calls), NoProgressRule(outcomes), PingPongRule(calls)]
  }

  /** The first rule that fires, in order. */
  ghost function Verdict(calls: seq<Call>, outcomes: seq<Outcome>): Detection {
    var rules := Rules(calls, outcomes);
    if rules[0] != NOTHING then rules[0]
    else if rules[1] != NOTHING then rules[1]
    else if rules[2] != NOTHING then rules[2]
    else rules[3]
  }

  /** Taking the first rule that fires never hides a more severe one. */
  lemma VerdictIsMostSevere(calls: seq<Call>, outcomes: seq<Outcome>)
    ensures Verdict(calls, outcomes) in Rules(calls, outcomes)
    ensures forall d :: d in Rules(calls, outcomes) ==> d.severity.Rank() <= Verdict(calls, outcomes).severity.Rank()
  {
    var rules := Rules(calls, outcomes);
    assert Verdict(calls, outcomes) == rules[0] || Verdict(calls, outcomes) == rules[1]
        || Verdict(calls, outcomes) == rules[2] || Verdict(calls, outcomes) == rules[3];
  }

  /** The two rules about the end of the history, by its last entries. */
  lemma TailRules(calls: seq<Call>, outcomes: seq<Outcome>)
    ensures NoProgress(outcomes) <==> |outcomes| >= 5 && exists o :: outcomes[|outcomes| - 5..] == [o, o, o, o, o]
    ensures PingPong(calls) <==> |calls| >= 8 && exists a, b :: a != b && Hashes(calls[|calls| - 8..]) == [a, b, a, b, a, b, a, b]
  {
    NoProgressTail(outcomes);
    PingPongTail(calls);
  }

  lemma NoProgressTail(outcomes: seq<Outcome>)
    ensures NoProgress(outcomes) <==> |outcomes| >= 5 && exists o :: outcomes[|outcomes| - 5..] == [o, o, o, o, o]
  {
    if |outcomes| >= 5 {
      var n, tail := |outcomes|, outcomes[|outcomes| - 5..];
      if NoProgress(outcomes) {
        var o := outcomes[n - 1];
        assert forall k :: 0 <= k < 5 ==> tail[k] == outcomes[n - 5 + k] == o;
        assert tail == [o, o, o, o, o];
      }
      if exists o :: tail == [o, o, o, o, o] {
        var o :| tail == [o, o, o, o, o];
        forall i | n - 5 <= i < n ensures outcomes[i] == outcomes[n - 1] {
          assert outcomes[i] == tail[i - (n - 5)] == o && outcomes[n - 1] == tail[4] == o;
        }
      }
    }
  }

  lemma PingPongTail(calls: seq<Call>)
    ensures PingPong(calls) <==> |calls| >= 8 && exists a, b :: a != b && Hashes(calls[|calls| - 8..]) == [a, b, a, b, a, b, a, b]
  {
    if |calls| >= 8 {
      var tail := calls[|calls| - 8..];
      var hashes := Hashes(tail);
      PingPongOnTail(calls, tail);
      if PingPong(calls) {
        var a, b := tail[0].argsHash, tail[1].argsHash;
        assert hashes == [a, b, a, b, a, b, a, b];
      }
      if exists a, b :: a != b && hashes == [a, b, a, b, a, b, a, b] {
        var a, b :| a != b && hashes == [a, b, a, b, a, b, a, b];
        forall k | 0 <= k < 8 ensures tail[k].argsHash == if k % 2 == 1 then b else a { assert hashes[k] == tail[k].argsHash; }
      }
    }
  }

  /** Which rule gives the verdict its name: the most severe one, and of several warnings the first in this order. */
  lemma VerdictNames(calls: seq<Call>, outcomes: seq<Outcome>)
    ensures var kind := Verdict(calls, outcomes).kind;
            && (kind == "circuit_breaker" <==> exists h :: Total(calls, h) >= 30)
            && (kind == "generic_repeat" <==> !Tripped(calls) && exists c :: multiset(LastN(calls, 30))[c] >= 10)
            && (kind == "no_progress" <==> !Tripped(calls) && !Repeats(calls, 10) && NoProgress(outcomes))
            && (kind == "ping_pong" <==> !Tripped(calls) && !Repeats(calls, 10) && !NoProgress(outcomes) && PingPong(calls))
            && (kind == "" <==> Verdict(calls, outcomes).severity == Calm)
  {
    assert Tripped(calls) <==> exists h :: Total(calls, h) >= 30;
    assert forall c :: Recent(calls, c) == multiset(LastN(calls, 30))[c];
    assert Repeats(calls, 10) <==> exists c :: Recent(calls, c) >= 10;
    if Repeats(calls, 20) {
      var c :| Recent(calls, c) >= 20;
      assert Recent(calls, c) >= 10;
    }
  }

  /** No call was made thirty times, nor twenty times among the last thirty. */
  ghost predicate Safe(calls: seq<Call>) {
    && (forall h :: Total(calls, h) < CIRCUIT_BREAKER)
    && (forall c :: Recent(calls, c) < CRITICAL_THRESHOLD)
  }

  lemma CriticalIffUnsafe(calls: seq<Call>, outcomes: seq<Outcome>)
    ensures Verdict(calls, outcomes).severity == Critical <==> !Safe(calls)
  {
  }

  /** Even places hold the first hash, odd places the second. */
  ghost predicate Alternates(tail: seq<Call>)
    requires |tail| >= 2
  {
    forall k :: 0 <= k < |tail| ==> tail[k].argsHash == if k % 2 == 1 then tail[1].argsHash else tail[0].argsHash
  }

  /** "A B A B ..." from the front is "each equals the one before last, the last two differ" from the back. */
  lemma PingPongOnTail(calls: seq<Call>, tail: seq<Call>)
    requires |calls| >= PING_PONG_LENGTH && tail == LastN(calls, PING_PONG_LENGTH)
    ensures PingPong(calls) <==> tail[0].argsHash != tail[1].argsHash && Alternates(tail)
  {
    var base := |calls| - PING_PONG_LENGTH;
    assert forall k :: 0 <= k < PING_PONG_LENGTH ==> calls[base + k] == tail[k];
    if PingPong(calls) {
      forall k | 2 <= k < PING_PONG_LENGTH ensures tail[k].argsHash == tail[k - 2].argsHash {
        assert calls[base + k].argsHash == calls[base + k - 2].argsHash;
      }
      TakesTurns(tail);
    }
    if tail[0].argsHash != tail[1].argsHash && Alternates(tail) {
      assert tail[6].argsHash == tail[0].argsHash && tail[7].argsHash == tail[1].argsHash;
      forall i | base + 2 <= i < |calls| ensures calls[i].argsHash == calls[i - 2].argsHash {
        assert calls[i] == tail[i - base] && calls[i - 2] == tail[i - 2 - base];
      }
    }
  }

  lemma TakesTurns(tail: seq<Call>)
    requires |tail| == PING_PONG_LENGTH
    requires forall k :: 2 <= k < PING_PONG_LENGTH ==> tail[k].argsHash == tail[k - 2].argsHash
    ensures Alternates(tail)
    ensures tail[6].argsHash == tail[0].argsHash && tail[7].argsHash == tail[1].argsHash
  {
    assert tail[2].argsHash == tail[0].argsHash && tail[3].argsHash == tail[1].argsHash;
    assert tail[4].argsHash == tail[2].argsHash && tail[5].argsHash == tail[3].argsHash;
  }

  /** One more call raises the total of its own hash by one. */
  lemma TotalOfAppend(calls: seq<Call>, c: Call, h: string)
    ensures Total(calls + [c], h) == Total(calls, h) + if h == c.argsHash then 1 else 0
  {
    assert Hashes(calls + [c]) == Hashes(calls) + [c.argsHash];
  }

  ghost predicate CountsAll(counts: map<string, nat>, calls: seq<Call>) {
    && (forall h :: h in counts ==> counts[h] == Total(calls, h))
    && (forall h :: h !in counts ==> Total(calls, h) == 0)
  }

  lemma CountOneMore(counts: map<string, nat>, calls: seq<Call>, c: Call, n: nat)
    requires CountsAll(counts, calls)
    requires n == if c.argsHash in counts then counts[c.argsHash] else 0
    ensures CountsAll(counts[c.argsHash := n + 1], calls + [c])
  {
    var counts' := counts[c.argsHash := n + 1];
    forall h | h in counts' ensures counts'[h] == Total(calls + [c], h) { TotalOfAppend(calls, c, h); }
    forall h | h !in counts' ensures Total(calls + [c], h) == 0 { TotalOfAppend(calls, c, h); }
  }

  // ---- The detector object ----

  class ToolLoopDetector {
    var calls: seq<Call>
    var outcomes: seq<Outcome>
    var totalCounts: map<string, nat>
    ghost var allCalls: seq<Call>
    ghost var allOutcomes: seq<Outcome>

    ghost predicate Valid() reads this {
      && calls == LastN(allCalls, HISTORY_SIZE)
      && outcomes == LastN(allOutcomes, HISTORY_SIZE)
      && CountsAll(totalCounts, allCalls)
    }

    constructor ()
      ensures Valid() && allCalls == [] && allOutcomes == []
    {
      calls, outcomes, totalCounts := [], [], map[];
      allCalls, allOutcomes := [], [];
    }

    method Record(tool: string, argsHash: string)
      requires Valid()
      modifies this`calls, this`totalCounts, this`allCalls
      ensures Valid() && allCalls == old(allCalls) + [Call(tool, argsHash)]
    {
      var c := Call(tool, argsHash);
      var n := if argsHash in totalCounts then totalCounts[argsHash] else 0;
      CountOneMore(totalCounts, allCalls, c, n);
      LastNOfAppend(allCalls, HISTORY_SIZE, c);
      var longer := calls + [c];
      calls := if |longer| > HISTORY_SIZE then longer[|longer| - HISTORY_SIZE..] else longer;
      assert calls == LastN(longer, HISTORY_SIZE);
      totalCounts := totalCounts[argsHash := n + 1];
      allCalls := allCalls + [c];
    }

    method RecordOutcome(argsHash: string, resultHash: string)
      requires Valid()
      modifies this`outcomes, this`allOutcomes
      ensures Valid() && allOutcomes == old(allOutcomes) + [Outcome(argsHash, resultHash)]
    {
      LastNOfAppend(allOutcomes, HISTORY_SIZE, Outcome(argsHash, resultHash));
      outcomes := outcomes + [Outcome(argsHash, resultHash)];
      if |outcomes| > HISTORY_SIZE {
        outcomes := outcomes[|outcomes| - HISTORY_SIZE..];
      }
      allOutcomes := allOutcomes + [Outcome(argsHash, resultHash)];
    }

    method CheckCircuitBreaker() returns (det: Detection)
      requires Valid()
      ensures det == CircuitBreakerRule(allCalls)
    {
      var todo := totalCounts.Keys;
      while todo != {}
        invariant todo <= totalCounts.Keys
        invariant forall h :: h !in todo ==> Total(allCalls, h) < CIRCUIT_BREAKER
        decreases todo
      {
        var h :| h in todo;
        if totalCounts[h] >= CIRCUIT_BREAKER {
          return Detection(Critical, "circuit_breaker");
        }
        todo := todo - {h};
      }
      return NOTHING;
    }

    /** How often each call of the window occurs in it. */
    method CountCalls() returns (counts: map<Call, nat>)
      requires Valid()
      ensures forall c :: c in counts ==> counts[c] == Recent(allCalls, c)
      ensures forall c :: c !in counts ==> Recent(allCalls, c) == 0
    {
      counts := map[];
      var window := calls;
      for i := 0 to |window|
        invariant forall c :: c in counts ==> counts[c] == multiset(window[..i])[c]
        invariant forall c :: c !in counts ==> multiset(window[..i])[c] == 0
      {
        var c := window[i];
        assert window[..i + 1] == window[..i] + [c];
        counts := counts[c := (if c in counts then counts[c] else 0) + 1];
      }
      assert window[..|window|] == window;
    }

    method CheckGenericRepeat() returns (det: Detection)
      requires Valid()
      ensures det == GenericRepeatRule(allCalls)
    {
      if |calls| == 0 {
        assert forall c :: Recent(allCalls, c) == 0;
        return NOTHING;
      }
      var counts := CountCalls();
      var maxCount := MaxCount(counts);
      assert forall c :: Recent(allCalls, c) <= maxCount;
      if maxCount >= CRITICAL_THRESHOLD {
        return Detection(Critical, "generic_repeat");
      }
      if maxCount >= WARN_THRESHOLD {
        return Detection(Warning, "generic_repeat");
      }
      return NOTHING;
    }

    /** The highest count, which some call has unless there is none. */
    method MaxCount(counts: map<Call, nat>) returns (maxCount: nat)
      ensures forall c :: c in counts ==> counts[c] <= maxCount
      ensures maxCount == 0 || exists c :: c in counts && counts[c] == maxCount
    {
      var todo := counts.Keys;
      maxCount := 0;
      while todo != {}
        invariant todo <= counts.Keys
        invariant forall c :: c in counts && c !in todo ==> counts[c] <= maxCount
        invariant maxCount == 0 || exists c :: c in counts && counts[c] == maxCount
        decreases todo
      {
        var c :| c in todo;
        if counts[c] > maxCount {
          maxCount := counts[c];
        }
        todo := todo - {c};
      }
    }

    method CheckNoProgress() returns (det: Detection)
      requires Valid()
      ensures det == NoProgressRule(allOutcomes)
    {
      if |outcomes| < NO_PROGRESS_CONSEC {
        return NOTHING;
      }
      var tail := outcomes[|outcomes| - NO_PROGRESS_CONSEC..];
      ghost var base := |allOutcomes| - NO_PROGRESS_CONSEC;
      LastNOfLastN(allOutcomes, HISTORY_SIZE, NO_PROGRESS_CONSEC);
      assert forall k :: 0 <= k < NO_PROGRESS_CONSEC ==> tail[k] == allOutcomes[base + k];
      var first, same := tail[0], true;
      for k := 1 to |tail|
        invariant same
        invariant forall j :: 0 <= j < k ==> tail[j] == first
      {
        if tail[k].argsHash != first.argsHash || tail[k].resultHash != first.resultHash {
          same := false;
          assert allOutcomes[base + k] != allOutcomes[base];
          break;
        }
      }
      if same {
        assert forall i :: base <= i < |allOutcomes| ==> allOutcomes[i] == tail[i - base];
        return Detection(Warning, "no_progress");
      }
      return NOTHING;
    }

    method CheckPingPong() returns (det: Detection)
      requires Valid()
      ensures det == PingPongRule(allCalls)
    {
      if |calls| < PING_PONG_LENGTH {
        return NOTHING;
      }
      var tail := calls[|calls| - PING_PONG_LENGTH..];
      var a, b := tail[0].argsHash, tail[1].argsHash;
      assert PingPong(allCalls) <==> a != b && Alternates(tail) by {
        LastNOfLastN(allCalls, HISTORY_SIZE, PING_PONG_LENGTH);
        PingPongOnTail(allCalls, tail);
      }
      if a == b {
        return NOTHING;
      }
      var pingPong := true;
      for i := 0 to |tail|
        invariant pingPong
        invariant forall k :: 0 <= k < i ==> tail[k].argsHash == if k % 2 == 1 then b else a
      {
        var expected := if i % 2 == 1 then b else a;
        if tail[i].argsHash != expected {
          pingPong := false;
          assert !Alternates(tail);
          break;
        }
      }
      if pingPong {
        return Detection(Warning, "ping_pong");
      }
      return NOTHING;
    }

    /** The windows answer as the full history would. */
    method Check() returns (det: Detection)
      requires Valid()
      ensures det == Verdict(allCalls, allOutcomes)
    {
      det := CheckCircuitBreaker();
      if det.severity != Calm { return; }
      det := CheckGenericRepeat();
      if det.severity != Calm { return; }
      det := CheckNoProgress();
      if det.severity != Calm { return; }
      det := CheckPingPong();
    }
  }
}
