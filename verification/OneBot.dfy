/**
  The OneBot duplicate filter: a ring of the last N accepted message IDs and a
  set for constant-time lookup.  The pure specification keeps the whole history
  of accepted IDs; the class keeps only the ring, the index and the set.
 */
module OneBot {
  import opened Sequences

  /** IDs that carry no identity and are never filtered. */
  predicate Ignored(id: string) { id == "" || id == "0" }

  /** "Seen before" as the full history answers it. */
  predicate Seen(history: seq<string>, n: nat, id: string) {
    !Ignored(id) && id in LastN(history, n)
  }

  /** The accepted history after one more ID. */
  function Accept(history: seq<string>, n: nat, id: string): seq<string> {
    if Ignored(id) || Seen(history, n, id) then history else history + [id]
  }

  /** The accepted history after a whole stream of IDs. */
  function AcceptAll(n: nat, ids: seq<string>): seq<string> {
    if ids == [] then [] else Accept(AcceptAll(n, ids[..|ids| - 1]), n, ids[|ids| - 1])
  }

  /** Any two equal elements are more than n places apart. */
  ghost predicate Spaced(h: seq<string>, n: nat) {
    forall i, j :: 0 <= i < j < |h| && j - i <= n ==> h[i] != h[j]
  }

  ghost predicate NoneIgnored(h: seq<string>) {
    forall i :: 0 <= i < |h| ==> !Ignored(h[i])
  }

  lemma AcceptKeepsSpacing(h: seq<string>, n: nat, id: string)
    requires Spaced(h, n) && NoneIgnored(h)
    ensures Spaced(Accept(h, n, id), n) && NoneIgnored(Accept(h, n, id))
  {
    var h' := Accept(h, n, id);
    if h' != h {
      forall i, j | 0 <= i < j < |h'| && j - i <= n ensures h'[i] != h'[j] {
        if j == |h| {
          var w := LastN(h, n);
          assert h[i] == w[i - (|h| - |w|)];
        }
      }
    }
  }

  /** Over any stream, an ID is let through again only after n other acceptances. */
  lemma {:induction false} RepeatsAreFarApart(n: nat, ids: seq<string>)
    ensures Spaced(AcceptAll(n, ids), n) && NoneIgnored(AcceptAll(n, ids))
  {
    if ids != [] {
      var front := ids[..|ids| - 1];
      RepeatsAreFarApart(n, front);
      AcceptKeepsSpacing(AcceptAll(n, front), n, ids[|ids| - 1]);
    }
  }

  function Elements(s: seq<string>): set<string> { set x | x in s }

  lemma {:induction false} DistinctLength(h: seq<string>, pool: set<string>)
    requires Spaced(h, |h|) && Elements(h) <= pool
    ensures |h| <= |pool|
  {
    if h != [] {
      var front, last := h[..|h| - 1], h[|h| - 1];
      assert last in Elements(h);
      forall x | x in Elements(front) ensures x in pool - {last} {
        var i :| 0 <= i < |front| && front[i] == x;
        assert h[i] == x && x in Elements(h);
      }
      DistinctLength(front, pool - {last});
    }
  }

  /** A stream drawn from at most n different IDs never gets a duplicate through, and loses none. */
  lemma {:induction false} SmallStreamsAreExactlyOnce(n: nat, ids: seq<string>, pool: set<string>)
    requires |pool| <= n && Elements(ids) <= pool
    ensures var h := AcceptAll(n, ids);
            && Spaced(h, |h|)
            && Elements(h) == set x | x in ids && !Ignored(x)
  {
    if ids != [] {
      var front, id := ids[..|ids| - 1], ids[|ids| - 1];
      assert ids == front + [id];
      assert id in Elements(ids);
      forall x | x in Elements(front) ensures x in pool { assert x in Elements(ids); }
      SmallStreamsAreExactlyOnce(n, front, pool);
      var h, h' := AcceptAll(n, front), AcceptAll(n, ids);
      forall x | x in Elements(h) ensures x in pool { assert x in front; }
      DistinctLength(h, pool);
      assert LastN(h, n) == h;
      assert forall x :: x in ids <==> x in front || x == id;
      if h' == h {
        assert Ignored(id) || id in Elements(h);
      } else {
        assert h' == h + [id];
        forall x ensures x in Elements(h') <==> x in ids && !Ignored(x) {
          assert x in Elements(h) <==> x in front && !Ignored(x);
          assert x in h' <==> x in h || x == id;
        }
      }
    }
  }

  /**
    The ring's n slots after history h: `lap` IDs were accepted before the
    current lap, slots before idx belong to this lap, the others to the last.
   */
  ghost predicate RingHolds(ring: seq<string>, idx: int, h: seq<string>) {
    var n, lap := |ring|, |h| - idx;
    && 0 <= idx < n
    && (lap == 0 || lap >= n)
    && (forall j :: 0 <= j < idx ==> ring[j] == h[lap + j])
    && (forall j :: idx <= j < n ==> ring[j] == if lap == 0 then "" else h[lap - n + j])
  }

  lemma NextIndex(idx: int, n: int)
    requires 0 <= idx < n
    ensures (idx + 1) % n == if idx + 1 == n then 0 else idx + 1
  {
  }

  lemma RingAdvances(ring: seq<string>, idx: int, h: seq<string>, id: string)
    requires RingHolds(ring, idx, h)
    ensures RingHolds(ring[idx := id], (idx + 1) % |ring|, h + [id])
    ensures ring[idx] == if |h| < |ring| then "" else h[|h| - |ring|]
  {
    NextIndex(idx, |ring|);
    var next := if idx + 1 == |ring| then 0 else idx + 1;
    assert RingHolds(ring[idx := id], next, h + [id]);
  }

  /** The non-empty slots are exactly the last |ring| accepted IDs. */
  lemma SlotsAreTheWindow(ring: seq<string>, idx: int, h: seq<string>, id: string)
    requires RingHolds(ring, idx, h) && NoneIgnored(h)
    ensures id in LastN(h, |ring|) <==> id != "" && id in ring
  {
    var n, w, lap := |ring|, LastN(h, |ring|), |h| - idx;
    if id in w {
      var k :| 0 <= k < |w| && w[k] == id;
      var a := |h| - |w| + k;
      assert h[a] == id && !Ignored(h[a]);
      assert ring[if a >= lap then a - lap else a - lap + n] == id;
    }
    if id != "" && id in ring {
      var j :| 0 <= j < n && ring[j] == id;
      var a := if j < idx then lap + j else lap - n + j;
      assert w[a - (|h| - |w|)] == id;
    }
  }

  lemma SlotsAreDistinct(ring: seq<string>, idx: int, h: seq<string>, i: int, j: int)
    requires RingHolds(ring, idx, h) && Spaced(h, |ring|)
    requires 0 <= i < j < |ring| && ring[i] != ""
    ensures ring[i] != ring[j]
  {
    var n, lap := |ring|, |h| - idx;
    var a := if i < idx then lap + i else lap - n + i;
    var b := if j < idx then lap + j else lap - n + j;
    assert ring[i] == h[a];
    if ring[j] != "" {
      assert ring[j] == h[b] && a != b;
    }
  }

  /** The ID a full window forgets next. */
  function Oldest(h: seq<string>, n: nat): set<string> {
    if n == 0 || |h| < n then {} else {h[|h| - n]}
  }

  /** Appending to a full window drops exactly its first element. */
  lemma WindowSlides(h: seq<string>, n: nat, id: string)
    requires n > 0 && Spaced(h, n) && id !in LastN(h, n)
    ensures Elements(LastN(h + [id], n)) == Elements(LastN(h, n)) - Oldest(h, n) + {id}
  {
    var w, w' := LastN(h, n), LastN(h + [id], n);
    if |h| < n {
      assert w' == w + [id];
    } else {
      assert w == [h[|h| - n]] + h[|h| - n + 1..];
      assert w' == h[|h| - n + 1..] + [id];
      assert h[|h| - n] !in h[|h| - n + 1..];
    }
  }

  /** Everything one acceptance changes. */
  lemma AcceptEffect(slots: seq<string>, idx: int, h: seq<string>, id: string,
                     slots': seq<string>, idx': int, h': seq<string>)
    requires RingHolds(slots, idx, h) && Spaced(h, |slots|) && NoneIgnored(h)
    requires !Ignored(id) && id !in LastN(h, |slots|)
    requires slots' == slots[idx := id] && idx' == (idx + 1) % |slots| && h' == h + [id]
    ensures Accept(h, |slots|, id) == h'
    ensures RingHolds(slots', idx', h') && Spaced(h', |slots'|) && NoneIgnored(h')
    ensures Oldest(h, |slots|) == if slots[idx] == "" then {} else {slots[idx]}
    ensures Elements(LastN(h', |slots'|)) == Elements(LastN(h, |slots|)) - Oldest(h, |slots|) + {id}
  {
    AcceptKeepsSpacing(h, |slots|, id);
    RingAdvances(slots, idx, h, id);
    WindowSlides(h, |slots|, id);
  }

  class Dedup {
    var dedup: set<string>
    const dedupRing: array<string>
    var dedupIdx: int
    ghost var accepted: seq<string>

    ghost predicate Valid()
      reads this, dedupRing
    {
      && RingHolds(dedupRing[..], dedupIdx, accepted)
      && Spaced(accepted, dedupRing.Length) && NoneIgnored(accepted)
      && dedup == Elements(LastN(accepted, dedupRing.Length))
    }

    constructor (dedupSize: nat)
      requires dedupSize > 0
      ensures Valid() && accepted == [] && dedup == {} && dedupRing.Length == dedupSize
      ensures fresh(dedupRing)
    {
      dedup := {};
      dedupRing := new string[dedupSize](_ => "");
      dedupIdx := 0;
      accepted := [];
    }

    /** The set is exactly the non-empty slots, and no ID is in two slots. */
    lemma SetMirrorsRing()
      requires Valid()
      ensures forall id :: id in dedup <==> id != "" && id in dedupRing[..]
      ensures forall i, j :: 0 <= i < j < dedupRing.Length && dedupRing[i] != "" ==> dedupRing[i] != dedupRing[j]
    {
      forall id ensures id in dedup <==> id != "" && id in dedupRing[..] {
        SlotsAreTheWindow(dedupRing[..], dedupIdx, accepted, id);
      }
      forall i, j | 0 <= i < j < dedupRing.Length && dedupRing[i] != "" ensures dedupRing[i] != dedupRing[j] {
        SlotsAreDistinct(dedupRing[..], dedupIdx, accepted, i, j);
      }
    }

    method IsDuplicate(messageID: string) returns (duplicate: bool)
      requires Valid()
      modifies this, dedupRing
      ensures Valid()
      ensures duplicate == Seen(old(accepted), dedupRing.Length, messageID)
      ensures accepted == Accept(old(accepted), dedupRing.Length, messageID)
      ensures duplicate <==> messageID != "" && messageID != "0" && messageID in old(dedup)
      ensures messageID in dedup <==> messageID != "" && messageID != "0"
      // A full ring forgets its oldest ID and nothing else.
      ensures dedup == if accepted == old(accepted) then old(dedup)
                       else old(dedup) - Oldest(old(accepted), dedupRing.Length) + {messageID}
    {
      if messageID == "" || messageID == "0" {
        return false;
      }
      if messageID in dedup {
        return true;
      }
      ghost var slots, h := dedupRing[..], accepted;
      var oldest := dedupRing[dedupIdx];
      if oldest != "" {
        dedup := dedup - {oldest};
      }
      dedupRing[dedupIdx] := messageID;
      dedup := dedup + {messageID};
      dedupIdx := (dedupIdx + 1) % dedupRing.Length;
      accepted := accepted + [messageID];
      AcceptEffect(slots, old(dedupIdx), h, messageID, dedupRing[..], dedupIdx, accepted);
      return false;
    }
  }
}
