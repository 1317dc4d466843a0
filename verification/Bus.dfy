/**
  The outbound half of the message bus: every publish starts one sender per
  subscriber, and each subscriber has a buffer that a drain moves into the
  consumer's channel.  One step is one select, one counter update or one locked
  region; a message is known by the index of its publish.
 */
module Bus {
  const SUBSCRIBER_CAP := 1024
  const OUTBOUND_CAP := 256

  /** The senders of a subscriber that have yet to select, to count a delivery, to count a drop. */
  datatype Senders = Senders(ready: set<nat>, sent: set<nat>, refused: set<nat>)
  {
    predicate Has(p: nat) { p in ready || p in sent || p in refused }
  }

  /** Where the drain is: waiting, holding a message, about to count a drop, returned. */
  datatype Drain = Idle | Holding(m: nat) | TimedOut | Ended

  /** Buffer, drain and consumer channel; and, as history, what entered and what the consumer received. */
  datatype Queue = Queue(buf: seq<nat>, drain: Drain, out: seq<nat>, entered: seq<nat>, received: seq<nat>)

  /** A subscriber; late counts the drops that its drain has added to the total. */
  datatype Sub = Sub(listed: bool, cancelled: bool, w: Senders, q: Queue, late: nat)

  const NEW_SUB := Sub(true, false, Senders({}, {}, {}), Queue([], Idle, [], [], []), 0)

  datatype Stage = Called | Sending | Returned

  /** A publish, and the publishes that had returned when it was called. */
  datatype Pub = Pub(stage: Stage, earlier: set<nat>)

  /** The bus; attempted counts the senders ever started. */
  datatype State = State(subs: seq<Sub>, pubs: seq<Pub>, done: bool, delivered: nat, dropped: nat, attempted: nat)

  /** What can happen to one subscriber by itself. */
  datatype Move =
    | Unsubscribe
    | Select(p: nat, giveUp: bool)
    | CountSent(p: nat)
    | CountRefused(p: nat)
    | Take
    | Forward
    | Timeout
    | CountLate
    | Stop
    | Receive

  datatype Step =
    | Subscribe
    | CloseDone
    | CloseSubs
    | Publish
    | Snapshot(p: nat)
    | Return(p: nat)
    | Of(id: nat, move: Move)

  // ---- One subscriber ----

  predicate Able(sub: Sub, move: Move) {
    match move
    case Unsubscribe => true
    case Select(p, _) => p in sub.w.ready
    case CountSent(p) => p in sub.w.sent
    case CountRefused(p) => p in sub.w.refused
    case Take => sub.q.drain.Idle? && sub.q.buf != []
    case Forward => sub.q.drain.Holding? && |sub.q.out| < OUTBOUND_CAP
    case Timeout => sub.q.drain.Holding?
    case CountLate => sub.q.drain.TimedOut?
    case Stop => sub.cancelled && (sub.q.drain.Idle? || sub.q.drain.Holding?)
    case Receive => sub.q.out != []
  }

  /** A sender's select goes into the buffer when there is room, unless it is cancelled and the runtime picks that. */
  predicate Enters(sub: Sub, giveUp: bool) { |sub.q.buf| < SUBSCRIBER_CAP && !(sub.cancelled && giveUp) }

  function Entered(q: Queue, p: nat): Queue { q.(buf := q.buf + [p], entered := q.entered + [p]) }

  function Selected(sub: Sub, p: nat, giveUp: bool): Sub {
    if Enters(sub, giveUp)
    then sub.(w := Senders(sub.w.ready - {p}, sub.w.sent + {p}, sub.w.refused), q := Entered(sub.q, p))
    else sub.(w := Senders(sub.w.ready - {p}, sub.w.sent, sub.w.refused + {p}))
  }

  function Moved(sub: Sub, move: Move): Sub
    requires Able(sub, move)
  {
    match move
    case Unsubscribe => sub.(listed := false, cancelled := true)
    case Select(p, giveUp) => Selected(sub, p, giveUp)
    case CountSent(p) => sub.(w := sub.w.(sent := sub.w.sent - {p}))
    case CountRefused(p) => sub.(w := sub.w.(refused := sub.w.refused - {p}))
    case Take => sub.(q := sub.q.(drain := Holding(sub.q.buf[0]), buf := sub.q.buf[1..]))
    case Forward => sub.(q := sub.q.(drain := Idle, out := sub.q.out + [sub.q.drain.m]))
    case Timeout => sub.(q := sub.q.(drain := TimedOut))
    case CountLate => sub.(q := sub.q.(drain := Idle), late := sub.late + 1)
    case Stop => sub.(q := sub.q.(drain := Ended))
    case Receive => sub.(q := sub.q.(out := sub.q.out[1..], received := sub.q.received + [sub.q.out[0]]))
  }

  function Closed(sub: Sub): Sub { if sub.listed then sub.(listed := false, cancelled := true) else sub }

  /** With a sender about to offer message p. */
  function Begun(sub: Sub, p: nat): Sub { sub.(w := sub.w.(ready := sub.w.ready + {p})) }

  function Started(sub: Sub, p: nat): Sub { if sub.listed then Begun(sub, p) else sub }

  // ---- The bus ----

  predicate Enabled(s: State, step: Step) {
    match step
    case Of(id, move) => id < |s.subs| && Able(s.subs[id], move)
    case CloseSubs => s.done
    case Snapshot(p) => p < |s.pubs| && s.pubs[p].stage.Called?
    case Return(p) => p < |s.pubs| && s.pubs[p].stage.Sending? && forall id :: 0 <= id < |s.subs| ==> !s.subs[id].w.Has(p)
    case _ => true
  }

  function ListedCount(subs: seq<Sub>): nat {
    if subs == [] then 0 else ListedCount(subs[..|subs| - 1]) + (if subs[|subs| - 1].listed then 1 else 0)
  }

  function AllClosed(subs: seq<Sub>): seq<Sub> { seq(|subs|, i requires 0 <= i < |subs| => Closed(subs[i])) }

  function AllStarted(subs: seq<Sub>, p: nat): seq<Sub> { seq(|subs|, i requires 0 <= i < |subs| => Started(subs[i], p)) }

  function ReturnedPubs(pubs: seq<Pub>): set<nat> { set p: nat | p < |pubs| && pubs[p].stage.Returned? }

  function Staged(pubs: seq<Pub>, p: nat, stage: Stage): seq<Pub>
    requires p < |pubs|
  {
    pubs[p := Pub(stage, pubs[p].earlier)]
  }

  function Next(s: State, step: Step): State
    requires Enabled(s, step)
  {
    match step
    case Subscribe => s.(subs := s.subs + [NEW_SUB])
    case CloseDone => s.(done := true)
    case CloseSubs => s.(subs := AllClosed(s.subs))
    case Publish => s.(pubs := s.pubs + [Pub(if s.done then Returned else Called, ReturnedPubs(s.pubs))])
    case Snapshot(p) =>
      s.(subs := AllStarted(s.subs, p), pubs := Staged(s.pubs, p, Sending), attempted := s.attempted + ListedCount(s.subs))
    case Return(p) => s.(pubs := Staged(s.pubs, p, Returned))
    case Of(id, move) =>
      s.(subs := s.subs[id := Moved(s.subs[id], move)],
         delivered := s.delivered + (if move.CountSent? then 1 else 0),
         dropped := s.dropped + (if move.CountRefused? || move.CountLate? then 1 else 0))
  }

  const INIT := State([], [], false, 0, 0, 0)

  ghost predicate StepAt(states: seq<State>, steps: seq<Step>, i: int)
    requires 0 <= i < |steps| < |states|
  {
    Enabled(states[i], steps[i]) && states[i + 1] == Next(states[i], steps[i])
  }

  ghost predicate Run(states: seq<State>, steps: seq<Step>) {
    && |states| == |steps| + 1 && states[0] == INIT
    && forall i {:trigger StepAt(states, steps, i)} :: 0 <= i < |steps| ==> StepAt(states, steps, i)
  }

  // ---- Every sender is counted exactly once ----

  function Uncounted(w: Senders): nat { |w.ready| + |w.sent| + |w.refused| }

  /** Senders still to be counted, less the drops the drains have counted. */
  function Balance(subs: seq<Sub>): int {
    if subs == [] then 0
    else Balance(subs[..|subs| - 1]) + Uncounted(subs[|subs| - 1].w) - subs[|subs| - 1].late
  }

  lemma {:induction false} BalanceAfterMove(subs: seq<Sub>, id: nat, sub: Sub)
    requires id < |subs|
    ensures Balance(subs[id := sub]) == Balance(subs) - Uncounted(subs[id].w) + subs[id].late + Uncounted(sub.w) - sub.late
  {
    var n := |subs| - 1;
    if id < n {
      assert subs[id := sub][..n] == subs[..n][id := sub];
      BalanceAfterMove(subs[..n], id, sub);
    } else {
      assert subs[id := sub][..n] == subs[..n];
    }
  }

  lemma {:induction false} BalanceAfterClose(subs: seq<Sub>)
    ensures Balance(AllClosed(subs)) == Balance(subs)
  {
    if subs != [] {
      var n := |subs| - 1;
      assert AllClosed(subs)[..n] == AllClosed(subs[..n]);
      BalanceAfterClose(subs[..n]);
    }
  }

  lemma {:induction false} BalanceAfterStart(subs: seq<Sub>, p: nat)
    requires forall id :: 0 <= id < |subs| ==> p !in subs[id].w.ready
    ensures Balance(AllStarted(subs, p)) == Balance(subs) + ListedCount(subs)
  {
    if subs != [] {
      var n := |subs| - 1;
      assert AllStarted(subs, p)[..n] == AllStarted(subs[..n], p);
      BalanceAfterStart(subs[..n], p);
    }
  }

  // ---- A subscriber's senders ----

  /** Senders belong to publishes in progress, and are each at one place. */
  ghost predicate SendersOk(w: Senders, pubs: seq<Pub>) {
    && (forall p: nat :: w.Has(p) ==> p < |pubs| && pubs[p].stage.Sending?)
    && w.ready !! w.refused && w.ready !! w.sent && w.sent !! w.refused
  }

  /** What has entered is neither waiting to select nor refused. */
  ghost predicate EnteredOk(entered: seq<nat>, w: Senders, pubs: seq<Pub>) {
    forall i :: 0 <= i < |entered| ==>
      && entered[i] < |pubs| && !pubs[entered[i]].stage.Called?
      && entered[i] !in w.ready && entered[i] !in w.refused
  }

  ghost predicate Distinct<T>(s: seq<T>) { forall i, j :: 0 <= i < j < |s| ==> s[i] != s[j] }

  /** No publish that had returned before another was called comes after it. */
  ghost predicate Ordered(s: seq<nat>, pubs: seq<Pub>) {
    forall i, j :: 0 <= i < j < |s| && s[i] < |pubs| ==> s[j] !in pubs[s[i]].earlier
  }

  ghost predicate PubsOk(pubs: seq<Pub>) {
    forall p: nat, r: nat :: p < |pubs| && r in pubs[p].earlier ==> HasReturned(pubs, r)
  }

  predicate HasReturned(pubs: seq<Pub>, p: nat) { p < |pubs| && pubs[p].stage.Returned? }

  ghost predicate StreamOk(entered: seq<nat>, w: Senders, pubs: seq<Pub>) {
    SendersOk(w, pubs) && EnteredOk(entered, w, pubs) && Distinct(entered) && Ordered(entered, pubs)
  }

  lemma EnterKeepsStream(entered: seq<nat>, w: Senders, pubs: seq<Pub>, p: nat, w': Senders)
    requires StreamOk(entered, w, pubs) && PubsOk(pubs) && p in w.ready
    requires w' == Senders(w.ready - {p}, w.sent + {p}, w.refused)
    ensures StreamOk(entered + [p], w', pubs) && Uncounted(w') == Uncounted(w)
  {
    assert w.Has(p) && !HasReturned(pubs, p);
    assert forall r: nat :: w'.Has(r) ==> w.Has(r);
    forall i | 0 <= i < |entered| ensures p !in pubs[entered[i]].earlier && entered[i] != p {
    }
  }

  lemma RefuseKeepsStream(entered: seq<nat>, w: Senders, pubs: seq<Pub>, p: nat, w': Senders)
    requires StreamOk(entered, w, pubs) && p in w.ready
    requires w' == Senders(w.ready - {p}, w.sent, w.refused + {p})
    ensures StreamOk(entered, w', pubs) && Uncounted(w') == Uncounted(w)
  {
    assert forall r: nat :: w'.Has(r) ==> w.Has(r);
  }

  lemma CountKeepsStream(entered: seq<nat>, w: Senders, pubs: seq<Pub>, w': Senders)
    requires StreamOk(entered, w, pubs)
    requires w'.ready == w.ready && w'.sent <= w.sent && w'.refused <= w.refused
    ensures StreamOk(entered, w', pubs)
  {
    assert forall r: nat :: w'.Has(r) ==> w.Has(r);
  }

  /** A publish starts or moves on, but stays in progress while it has senders here. */
  lemma PubsKeepStream(entered: seq<nat>, w: Senders, pubs: seq<Pub>, pubs': seq<Pub>)
    requires StreamOk(entered, w, pubs) && |pubs| <= |pubs'|
    requires forall p :: 0 <= p < |pubs| ==> pubs'[p].earlier == pubs[p].earlier
    requires forall p :: 0 <= p < |pubs| ==> (pubs'[p].stage.Called? ==> pubs[p].stage.Called?)
    requires forall p: nat :: p < |pubs| && w.Has(p) ==> pubs'[p].stage == pubs[p].stage
    ensures StreamOk(entered, w, pubs')
  {
  }

  lemma StartKeepsStream(entered: seq<nat>, w: Senders, pubs: seq<Pub>, p: nat)
    requires StreamOk(entered, w, pubs) && p < |pubs| && pubs[p].stage.Called?
    ensures p !in w.ready
    ensures StreamOk(entered, w, Staged(pubs, p, Sending))
    ensures StreamOk(entered, w.(ready := w.ready + {p}), Staged(pubs, p, Sending))
  {
    assert !w.Has(p);
    var pubs', w' := Staged(pubs, p, Sending), w.(ready := w.ready + {p});
    PubsKeepStream(entered, w, pubs, pubs');
    assert forall r: nat :: w'.Has(r) ==> r == p || w.Has(r);
  }

  // ---- A subscriber's queue ----

  /** One sequence can be got from the other by leaving elements out. */
  predicate Thinned(a: seq<nat>, b: seq<nat>) {
    if a == [] then true
    else if b == [] then false
    else (a[|a| - 1] == b[|b| - 1] && Thinned(a[..|a| - 1], b[..|b| - 1])) || Thinned(a, b[..|b| - 1])
  }

  lemma ThinnedSkip(a: seq<nat>, b: seq<nat>, x: nat)
    requires Thinned(a, b)
    ensures Thinned(a, b + [x])
  {
    assert (b + [x])[..|b|] == b;
  }

  lemma ThinnedKeep(a: seq<nat>, b: seq<nat>, x: nat)
    requires Thinned(a, b)
    ensures Thinned(a + [x], b + [x])
  {
    assert (b + [x])[..|b|] == b && (a + [x])[..|a|] == a;
  }

  /** The message in the drain's hands, if any. */
  function Held(drain: Drain): seq<nat> { if drain.Holding? then [drain.m] else [] }

  /**
    What entered is what the drain has settled, what it holds and what is still
    buffered, in this order; the consumer got the settled part with gaps.
   */
  ghost predicate QueueOk(q: Queue, settled: seq<nat>) {
    && |q.buf| <= SUBSCRIBER_CAP && |q.out| <= OUTBOUND_CAP
    && q.entered == settled + Held(q.drain) + q.buf
    && Thinned(q.received + q.out, settled)
  }

  ghost predicate InOrder(q: Queue) { exists settled :: QueueOk(q, settled) }

  lemma EnterKeepsQueue(q: Queue, p: nat)
    requires InOrder(q) && |q.buf| < SUBSCRIBER_CAP
    ensures InOrder(Entered(q, p))
  {
    var settled :| QueueOk(q, settled);
    assert QueueOk(Entered(q, p), settled);
  }

  lemma TakeKeepsQueue(q: Queue)
    requires InOrder(q) && q.drain.Idle? && q.buf != []
    ensures InOrder(q.(drain := Holding(q.buf[0]), buf := q.buf[1..]))
  {
    var settled :| QueueOk(q, settled);
    assert QueueOk(q.(drain := Holding(q.buf[0]), buf := q.buf[1..]), settled);
  }

  lemma ForwardKeepsQueue(q: Queue)
    requires InOrder(q) && q.drain.Holding? && |q.out| < OUTBOUND_CAP
    ensures InOrder(q.(drain := Idle, out := q.out + [q.drain.m]))
  {
    var settled :| QueueOk(q, settled);
    assert q.received + (q.out + [q.drain.m]) == (q.received + q.out) + [q.drain.m];
    ThinnedKeep(q.received + q.out, settled, q.drain.m);
    assert QueueOk(q.(drain := Idle, out := q.out + [q.drain.m]), settled + [q.drain.m]);
  }

  /** A message that is let go of leaves a gap. */
  lemma LetGoKeepsQueue(q: Queue, drain: Drain)
    requires InOrder(q) && !drain.Holding?
    ensures InOrder(q.(drain := drain))
  {
    var settled :| QueueOk(q, settled);
    if q.drain.Holding? {
      ThinnedSkip(q.received + q.out, settled, q.drain.m);
      assert QueueOk(q.(drain := drain), settled + [q.drain.m]);
    } else {
      assert QueueOk(q.(drain := drain), settled);
    }
  }

  lemma ReceiveKeepsQueue(q: Queue)
    requires InOrder(q) && q.out != []
    ensures InOrder(q.(out := q.out[1..], received := q.received + [q.out[0]]))
  {
    var settled :| QueueOk(q, settled);
    assert (q.received + [q.out[0]]) + q.out[1..] == q.received + q.out;
    assert QueueOk(q.(out := q.out[1..], received := q.received + [q.out[0]]), settled);
  }

  // ---- Every run ----

  ghost predicate SubOk(sub: Sub, pubs: seq<Pub>) { StreamOk(sub.q.entered, sub.w, pubs) && InOrder(sub.q) }

  ghost predicate Inv(s: State) {
    && PubsOk(s.pubs)
    && (forall id :: 0 <= id < |s.subs| ==> SubOk(s.subs[id], s.pubs))
    && s.attempted == Balance(s.subs) + s.delivered + s.dropped
  }

  function CountedBy(move: Move): nat { if move.CountSent? || move.CountRefused? || move.CountLate? then 1 else 0 }

  predicate SenderMove(move: Move) { move.Select? || move.CountSent? || move.CountRefused? }

  lemma SenderMoveKeepsSub(sub: Sub, move: Move, pubs: seq<Pub>, sub': Sub)
    requires SubOk(sub, pubs) && PubsOk(pubs) && Able(sub, move) && sub' == Moved(sub, move) && SenderMove(move)
    ensures SubOk(sub', pubs)
    ensures Uncounted(sub'.w) - sub'.late == Uncounted(sub.w) - sub.late - CountedBy(move)
  {
    match move
    case Select(p, giveUp) =>
      if Enters(sub, giveUp) {
        EnterKeepsStream(sub.q.entered, sub.w, pubs, p, sub'.w);
        EnterKeepsQueue(sub.q, p);
      } else {
        RefuseKeepsStream(sub.q.entered, sub.w, pubs, p, sub'.w);
      }
    case CountSent(p) => CountKeepsStream(sub.q.entered, sub.w, pubs, sub'.w);
    case CountRefused(p) => CountKeepsStream(sub.q.entered, sub.w, pubs, sub'.w);
  }

  lemma DrainMoveKeepsSub(sub: Sub, move: Move, pubs: seq<Pub>, sub': Sub)
    requires SubOk(sub, pubs) && PubsOk(pubs) && Able(sub, move) && sub' == Moved(sub, move) && !SenderMove(move)
    ensures SubOk(sub', pubs)
    ensures Uncounted(sub'.w) - sub'.late == Uncounted(sub.w) - sub.late - CountedBy(move)
  {
    match move
    case Unsubscribe =>
    case Take => TakeKeepsQueue(sub.q);
    case Forward => ForwardKeepsQueue(sub.q);
    case Timeout => LetGoKeepsQueue(sub.q, TimedOut);
    case CountLate => LetGoKeepsQueue(sub.q, Idle);
    case Stop => LetGoKeepsQueue(sub.q, Ended);
    case Receive => ReceiveKeepsQueue(sub.q);
  }

  lemma MoveKeepsSub(sub: Sub, move: Move, pubs: seq<Pub>, sub': Sub)
    requires SubOk(sub, pubs) && PubsOk(pubs) && Able(sub, move) && sub' == Moved(sub, move)
    ensures SubOk(sub', pubs)
    ensures Uncounted(sub'.w) - sub'.late == Uncounted(sub.w) - sub.late - CountedBy(move)
  {
    if SenderMove(move) { SenderMoveKeepsSub(sub, move, pubs, sub'); } else { DrainMoveKeepsSub(sub, move, pubs, sub'); }
  }

  lemma MoveKeepsInv(s: State, id: nat, move: Move)
    requires Inv(s) && Enabled(s, Of(id, move))
    ensures Inv(Next(s, Of(id, move)))
  {
    var sub' := Moved(s.subs[id], move);
    MoveKeepsSub(s.subs[id], move, s.pubs, sub');
    BalanceAfterMove(s.subs, id, sub');
  }

  lemma StageKeepsPubs(pubs: seq<Pub>, p: nat, stage: Stage)
    requires PubsOk(pubs) && p < |pubs| && !pubs[p].stage.Returned?
    ensures PubsOk(Staged(pubs, p, stage))
  {
    var pubs' := Staged(pubs, p, stage);
    forall x: nat, r: nat | x < |pubs'| && r in pubs'[x].earlier ensures HasReturned(pubs', r) {
      assert r in pubs[x].earlier;
      assert HasReturned(pubs, r);
    }
  }

  lemma PublishKeepsPubs(pubs: seq<Pub>, stage: Stage)
    requires PubsOk(pubs)
    ensures PubsOk(pubs + [Pub(stage, ReturnedPubs(pubs))])
  {
    var pubs' := pubs + [Pub(stage, ReturnedPubs(pubs))];
    forall x: nat, r: nat | x < |pubs'| && r in pubs'[x].earlier ensures HasReturned(pubs', r) {
      if x < |pubs| { assert r in pubs[x].earlier; } else { assert r in ReturnedPubs(pubs); }
      assert HasReturned(pubs, r);
    }
  }

  lemma SnapshotKeepsInv(s: State, p: nat)
    requires Inv(s) && Enabled(s, Snapshot(p))
    ensures Inv(Next(s, Snapshot(p)))
  {
    var subs', pubs' := AllStarted(s.subs, p), Staged(s.pubs, p, Sending);
    forall id | 0 <= id < |s.subs| ensures SubOk(subs'[id], pubs') && p !in s.subs[id].w.ready {
      assert SubOk(s.subs[id], s.pubs);
      StartKeepsStream(s.subs[id].q.entered, s.subs[id].w, s.pubs, p);
    }
    StageKeepsPubs(s.pubs, p, Sending);
    BalanceAfterStart(s.subs, p);
  }

  lemma ReturnKeepsInv(s: State, p: nat)
    requires Inv(s) && Enabled(s, Return(p))
    ensures Inv(Next(s, Return(p)))
  {
    StageKeepsPubs(s.pubs, p, Returned);
    PubsKeepSubs(s, Staged(s.pubs, p, Returned));
  }

  lemma PublishKeepsInv(s: State)
    requires Inv(s)
    ensures Inv(Next(s, Publish))
  {
    PublishKeepsPubs(s.pubs, if s.done then Returned else Called);
    forall p: nat, id | p < |s.pubs| && 0 <= id < |s.subs| && s.subs[id].w.Has(p) ensures Next(s, Publish).pubs[p] == s.pubs[p] {}
    PubsKeepSubs(s, Next(s, Publish).pubs);
  }

  lemma CloseKeepsInv(s: State)
    requires Inv(s) && Enabled(s, CloseSubs)
    ensures Inv(Next(s, CloseSubs))
  {
    var subs' := AllClosed(s.subs);
    forall id | 0 <= id < |s.subs| ensures SubOk(subs'[id], s.pubs) {
      assert SubOk(s.subs[id], s.pubs);
    }
    BalanceAfterClose(s.subs);
  }

  lemma PubsKeepSubs(s: State, pubs': seq<Pub>)
    requires forall id :: 0 <= id < |s.subs| ==> SubOk(s.subs[id], s.pubs)
    requires |s.pubs| <= |pubs'|
    requires forall p :: 0 <= p < |s.pubs| ==> pubs'[p].earlier == s.pubs[p].earlier
    requires forall p :: 0 <= p < |s.pubs| ==> (pubs'[p].stage.Called? ==> s.pubs[p].stage.Called?)
    requires forall p: nat, id :: p < |s.pubs| && 0 <= id < |s.subs| && s.subs[id].w.Has(p) ==> pubs'[p].stage == s.pubs[p].stage
    ensures forall id :: 0 <= id < |s.subs| ==> SubOk(s.subs[id], pubs')
  {
    forall id | 0 <= id < |s.subs| ensures SubOk(s.subs[id], pubs') {
      assert SubOk(s.subs[id], s.pubs);
      PubsKeepStream(s.subs[id].q.entered, s.subs[id].w, s.pubs, pubs');
    }
  }

  lemma SubscribeKeepsInv(s: State)
    requires Inv(s)
    ensures Inv(Next(s, Subscribe))
  {
    assert (s.subs + [NEW_SUB])[..|s.subs|] == s.subs;
    assert QueueOk(NEW_SUB.q, []);
    assert SubOk(NEW_SUB, s.pubs);
  }

  lemma StepKeepsInv(s: State, step: Step)
    requires Inv(s) && Enabled(s, step)
    ensures Inv(Next(s, step))
  {
    match step
    case Subscribe => SubscribeKeepsInv(s);
    case CloseDone =>
    case CloseSubs => CloseKeepsInv(s);
    case Publish => PublishKeepsInv(s);
    case Snapshot(p) => SnapshotKeepsInv(s, p);
    case Return(p) => ReturnKeepsInv(s, p);
    case Of(id, move) => MoveKeepsInv(s, id, move);
  }

  lemma {:induction false} InvAlways(states: seq<State>, steps: seq<Step>, i: nat)
    requires Run(states, steps) && i < |states|
    ensures Inv(states[i])
  {
    if i > 0 {
      InvAlways(states, steps, i - 1);
      assert StepAt(states, steps, i - 1);
      StepKeepsInv(states[i - 1], steps[i - 1]);
    }
  }

  /**
    At every moment, the senders started are those still to be counted, the
    deliveries and the drops, less the drops made later by the drains; once no
    sender is pending, the two totals account for all of them.
   */
  lemma EverySenderIsCounted(states: seq<State>, steps: seq<Step>, i: nat)
    requires Run(states, steps) && i < |states|
    ensures states[i].attempted == Balance(states[i].subs) + states[i].delivered + states[i].dropped
    ensures (forall sub :: sub in states[i].subs ==> Uncounted(sub.w) == 0)
            ==> states[i].attempted == states[i].delivered + states[i].dropped - LateDrops(states[i].subs)
  {
    InvAlways(states, steps, i);
    if forall sub :: sub in states[i].subs ==> Uncounted(sub.w) == 0 { SettledBalance(states[i].subs); }
  }

  function LateDrops(subs: seq<Sub>): nat {
    if subs == [] then 0 else LateDrops(subs[..|subs| - 1]) + subs[|subs| - 1].late
  }

  lemma {:induction false} SettledBalance(subs: seq<Sub>)
    requires forall sub :: sub in subs ==> Uncounted(sub.w) == 0
    ensures Balance(subs) + LateDrops(subs) == 0
  {
    if subs != [] {
      var rest := subs[..|subs| - 1];
      assert subs[|subs| - 1] in subs && forall sub :: sub in rest ==> sub in subs;
      SettledBalance(rest);
    }
  }

  // ---- What a consumer sees ----

  lemma {:induction false} ThinnedMember(a: seq<nat>, b: seq<nat>, x: nat)
    requires Thinned(a, b) && x in a
    ensures x in b
    decreases |b|
  {
    var a', b' := a[..|a| - 1], b[..|b| - 1];
    if Thinned(a, b') {
      ThinnedMember(a, b', x);
    } else {
      assert a == a' + [a[|a| - 1]];
      if x in a' { ThinnedMember(a', b', x); }
    }
  }

  /** Leaving messages out neither repeats nor reorders the others. */
  lemma {:induction false} ThinnedKeepsOrder(a: seq<nat>, b: seq<nat>, pubs: seq<Pub>)
    requires Thinned(a, b) && Distinct(b) && Ordered(b, pubs)
    ensures Distinct(a) && Ordered(a, pubs)
    decreases |b|
  {
    if a != [] {
      var a', b' := a[..|a| - 1], b[..|b| - 1];
      if Thinned(a, b') {
        ThinnedKeepsOrder(a, b', pubs);
      } else {
        ThinnedKeepsOrder(a', b', pubs);
        forall i | 0 <= i < |a'|
          ensures a[i] != a[|a| - 1] && (a[i] < |pubs| ==> a[|a| - 1] !in pubs[a[i]].earlier)
        {
          assert a'[i] in a';
          ThinnedMember(a', b', a[i]);
          var k :| 0 <= k < |b'| && b'[k] == a[i];
          assert b[k] == a[i];
        }
      }
    }
  }

  lemma {:induction false} ThinnedPrefix(a: seq<nat>, c: seq<nat>, b: seq<nat>)
    requires Thinned(a + c, b)
    ensures Thinned(a, b)
    decreases |b|
  {
    if a != [] {
      var ac, b' := a + c, b[..|b| - 1];
      if Thinned(ac, b') {
        ThinnedPrefix(a, c, b');
      } else if c == [] {
        assert ac == a;
      } else {
        assert ac[..|ac| - 1] == a + c[..|c| - 1];
        ThinnedPrefix(a, c[..|c| - 1], b');
      }
    }
  }

  lemma {:induction false} ThinnedExtends(a: seq<nat>, b: seq<nat>, c: seq<nat>)
    requires Thinned(a, b)
    ensures Thinned(a, b + c)
    decreases |c|
  {
    if c == [] {
      assert b + c == b;
    } else {
      ThinnedExtends(a, b, c[..|c| - 1]);
      ThinnedSkip(a, b + c[..|c| - 1], c[|c| - 1]);
      assert (b + c[..|c| - 1]) + [c[|c| - 1]] == b + c;
    }
  }

  /**
    A consumer receives what entered its buffer with gaps at most: never a message
    twice, and never one whose publish had returned before that of an earlier one was called.
   */
  lemma ConsumersSeeOrder(states: seq<State>, steps: seq<Step>, i: nat, id: nat)
    requires Run(states, steps) && i < |states| && id < |states[i].subs|
    ensures var q := states[i].subs[id].q;
            && Thinned(q.received, q.entered) && Distinct(q.received) && Ordered(q.received, states[i].pubs)
            && forall k :: 0 <= k < |q.received| ==> q.received[k] < |states[i].pubs|
  {
    InvAlways(states, steps, i);
    var sub := states[i].subs[id];
    assert SubOk(sub, states[i].pubs);
    var q := sub.q;
    var settled :| QueueOk(q, settled);
    ThinnedPrefix(q.received, q.out, settled);
    ThinnedExtends(q.received, settled, Held(q.drain) + q.buf);
    assert settled + (Held(q.drain) + q.buf) == q.entered;
    ThinnedKeepsOrder(q.received, q.entered, states[i].pubs);
    forall k | 0 <= k < |q.received| ensures q.received[k] < |states[i].pubs| {
      ThinnedMember(q.received, q.entered, q.received[k]);
      var e :| 0 <= e < |q.entered| && q.entered[e] == q.received[k];
    }
  }

  /** When each publish is called after all earlier ones returned, consumers receive in publish order. */
  lemma SequentialPublishesStayInOrder(states: seq<State>, steps: seq<Step>, i: nat, id: nat, j: nat, k: nat)
    requires Run(states, steps) && i < |states| && id < |states[i].subs|
    requires forall p: nat, r: nat :: r < p < |states[i].pubs| ==> r in states[i].pubs[p].earlier
    requires j < k < |states[i].subs[id].q.received|
    ensures states[i].subs[id].q.received[j] < states[i].subs[id].q.received[k]
  {
    ConsumersSeeOrder(states, steps, i, id);
    var received, pubs := states[i].subs[id].q.received, states[i].pubs;
    assert received[j] != received[k] && received[k] !in pubs[received[j]].earlier;
  }

  // ---- What a consumer does not see ----

  /** The messages the drain had in hand when it stopped: at most one. */
  function InHandAtStop(states: seq<State>, steps: seq<Step>, id: nat, i: nat): nat
    requires i < |states| == |steps| + 1
  {
    if i == 0 then 0
    else
      var s := states[i - 1];
      InHandAtStop(states, steps, id, i - 1)
      + if steps[i - 1] == Of(id, Stop) && id < |s.subs| && s.subs[id].q.drain.Holding? then 1 else 0
  }

  /** Received, in the channel, in the drain's hands, given up and buffered messages make up what entered. */
  predicate Balanced(sub: Sub, inHand: nat) {
    var q := sub.q;
    |q.entered| == |q.received| + |q.out| + |Held(q.drain)| + |q.buf| + sub.late + inHand + (if q.drain.TimedOut? then 1 else 0)
  }

  /** At most one message is lost to a stop, since the drain has ended then. */
  predicate StopsOnce(sub: Sub, inHand: nat) { inHand == 0 || (inHand == 1 && sub.q.drain == Ended) }

  lemma MoveKeepsBalance(sub: Sub, move: Move, inHand: nat)
    requires Able(sub, move) && Balanced(sub, inHand) && StopsOnce(sub, inHand)
    ensures var lost := inHand + if move == Stop && sub.q.drain.Holding? then 1 else 0;
            Balanced(Moved(sub, move), lost) && StopsOnce(Moved(sub, move), lost)
  {
  }

  /** Any step but one of its own leaves a subscriber's queue alone. */
  lemma QueueIsOwn(s: State, step: Step, id: nat, s': State)
    requires Enabled(s, step) && s' == Next(s, step) && id < |s'.subs| && !(step.Of? && step.id == id)
    ensures if id < |s.subs| then s'.subs[id].q == s.subs[id].q && s'.subs[id].late == s.subs[id].late else s'.subs[id] == NEW_SUB
  {
  }

  /**
    In any run, what entered a subscriber's buffer and has not been received, is
    not on its way and is not buffered was dropped by its drain, and counted or
    about to be, but for one message at most that a stop left in its hands.
   */
  lemma {:induction false} LossesAreDrops(states: seq<State>, steps: seq<Step>, i: nat, id: nat)
    requires Run(states, steps) && i < |states| && id < |states[i].subs|
    ensures var lost := InHandAtStop(states, steps, id, i);
            Balanced(states[i].subs[id], lost) && StopsOnce(states[i].subs[id], lost)
  {
    if i > 0 {
      var s, step, s' := states[i - 1], steps[i - 1], states[i];
      assert StepAt(states, steps, i - 1);
      if id < |s.subs| { LossesAreDrops(states, steps, i - 1, id); } else { NotYetStopped(states, steps, i - 1, id); }
      if step.Of? && step.id == id {
        MoveKeepsBalance(s.subs[id], step.move, InHandAtStop(states, steps, id, i - 1));
      } else {
        QueueIsOwn(s, step, id, s');
      }
    }
  }

  lemma {:induction false} NotYetStopped(states: seq<State>, steps: seq<Step>, i: nat, id: nat)
    requires Run(states, steps) && i < |states| && id >= |states[i].subs|
    ensures InHandAtStop(states, steps, id, i) == 0
  {
    if i > 0 {
      assert StepAt(states, steps, i - 1);
      NotYetStopped(states, steps, i - 1, id);
    }
  }

  /** Nothing is missing and nothing is out of order. */
  predicate Whole(q: Queue) { q.received + q.out + Held(q.drain) + q.buf == q.entered && !q.drain.TimedOut? && q.drain != Ended }

  lemma MoveKeepsWhole(q: Queue, sub: Sub, move: Move)
    requires q == sub.q && Able(sub, move) && Whole(q) && move != Timeout && move != Stop
    ensures Whole(Moved(sub, move).q)
  {
    match move
    case Select(p, giveUp) =>
      if Enters(sub, giveUp) { assert q.received + q.out + Held(q.drain) + (q.buf + [p]) == (q.received + q.out + Held(q.drain) + q.buf) + [p]; }
    case Take => assert [q.buf[0]] + q.buf[1..] == q.buf;
    case Forward => assert q.received + (q.out + [q.drain.m]) == q.received + q.out + [q.drain.m];
    case Receive => assert (q.received + [q.out[0]]) + q.out[1..] == q.received + q.out;
    case _ =>
  }

  /**
    As long as the drain of a subscriber neither times out nor stops, its consumer
    gets exactly what entered, in order: received, in the channel, in hand and
    buffered messages are all of them.
   */
  lemma {:induction false} NothingIsLost(states: seq<State>, steps: seq<Step>, i: nat, id: nat)
    requires Run(states, steps) && i < |states| && id < |states[i].subs|
    requires forall k :: 0 <= k < i ==> steps[k] != Of(id, Timeout) && steps[k] != Of(id, Stop)
    ensures Whole(states[i].subs[id].q)
  {
    if i > 0 {
      var s, step, s' := states[i - 1], steps[i - 1], states[i];
      assert StepAt(states, steps, i - 1);
      if id < |s.subs| { NothingIsLost(states, steps, i - 1, id); }
      if step.Of? && step.id == id {
        MoveKeepsWhole(s.subs[id].q, s.subs[id], step.move);
      } else {
        QueueIsOwn(s, step, id, s');
      }
    }
  }

  // ---- Isolation ----

  /** Whatever consumers and drains do, a sender always has a step of its own, and few of them: publishing never waits. */
  lemma SendersNeverWait(states: seq<State>, steps: seq<Step>, i: nat, id: nat, p: nat) returns (move: Move)
    requires Run(states, steps) && i < |states| && id < |states[i].subs| && states[i].subs[id].w.Has(p)
    ensures (move.Select? || move.CountSent? || move.CountRefused?) && move.p == p && Enabled(states[i], Of(id, move))
    ensures Work(Next(states[i], Of(id, move)).subs[id].w, p) < Work(states[i].subs[id].w, p) <= 2
  {
    InvAlways(states, steps, i);
    assert SubOk(states[i].subs[id], states[i].pubs);
    var w := states[i].subs[id].w;
    move := if p in w.ready then Select(p, false) else if p in w.sent then CountSent(p) else CountRefused(p);
  }

  /** The steps that a sender still has to take. */
  function Work(w: Senders, p: nat): nat {
    (if p in w.ready then 2 else 0) + (if p in w.sent then 1 else 0) + (if p in w.refused then 1 else 0)
  }

  /** What a step means for one subscriber; for most steps, nothing. */
  function Effect(sub: Sub, id: nat, step: Step): Sub {
    match step
    case CloseSubs => Closed(sub)
    case Snapshot(p) => Started(sub, p)
    case Of(i, move) => if i == id && Able(sub, move) then Moved(sub, move) else sub
    case _ => sub
  }

  predicate Concerns(id: nat, step: Step) { step.CloseSubs? || step.Snapshot? || (step.Of? && step.id == id) }

  function Effects(sub: Sub, id: nat, steps: seq<Step>): Sub {
    if steps == [] then sub else Effect(Effects(sub, id, steps[..|steps| - 1]), id, steps[|steps| - 1])
  }

  function Own(id: nat, steps: seq<Step>): seq<Step> {
    if steps == [] then []
    else
      var rest, last := Own(id, steps[..|steps| - 1]), steps[|steps| - 1];
      if Concerns(id, last) then rest + [last] else rest
  }

  lemma StepIsItsEffect(s: State, step: Step, id: nat, s': State)
    requires Enabled(s, step) && s' == Next(s, step) && id < |s.subs|
    ensures id < |s'.subs| && s'.subs[id] == Effect(s.subs[id], id, step)
  {
  }

  lemma EffectsAppend(sub: Sub, id: nat, steps: seq<Step>, last: Step)
    ensures Effects(sub, id, steps + [last]) == Effect(Effects(sub, id, steps), id, last)
  {
    assert (steps + [last])[..|steps|] == steps;
  }

  lemma {:induction false} SubIsItsEffects(states: seq<State>, steps: seq<Step>, id: nat, i: nat, j: nat)
    requires Run(states, steps) && i <= j < |states| && id < |states[i].subs|
    ensures id < |states[j].subs| && states[j].subs[id] == Effects(states[i].subs[id], id, steps[i..j])
    decreases j
  {
    if i < j {
      var s, last, s', before := states[j - 1], steps[j - 1], states[j], steps[i..j - 1];
      SubIsItsEffects(states, steps, id, i, j - 1);
      assert StepAt(states, steps, j - 1);
      StepIsItsEffect(s, last, id, s');
      EffectsAppend(states[i].subs[id], id, before, last);
      assert steps[i..j] == before + [last];
    } else {
      assert steps[i..j] == [];
    }
  }

  lemma {:induction false} OthersDoNotMatter(sub: Sub, id: nat, steps: seq<Step>)
    ensures Effects(sub, id, steps) == Effects(sub, id, Own(id, steps))
  {
    if steps != [] {
      var rest, last := steps[..|steps| - 1], steps[|steps| - 1];
      OthersDoNotMatter(sub, id, rest);
      if Concerns(id, last) { assert Own(id, steps)[..|Own(id, rest)|] == Own(id, rest); }
    }
  }

  /**
    What becomes of a subscriber depends on the steps that concern it alone: two
    runs that agree on these leave it with the same buffer, stream and consumer,
    whatever the other subscribers do.
   */
  lemma SubscribersAreIsolated(states: seq<State>, steps: seq<Step>, i: nat, j: nat,
                               states': seq<State>, steps': seq<Step>, i': nat, j': nat, id: nat)
    requires Run(states, steps) && i <= j < |states| && id < |states[i].subs|
    requires Run(states', steps') && i' <= j' < |states'| && id < |states'[i'].subs|
    requires states[i].subs[id] == states'[i'].subs[id]
    requires Own(id, steps[i..j]) == Own(id, steps'[i'..j'])
    ensures id < |states[j].subs| && id < |states'[j'].subs| && states[j].subs[id] == states'[j'].subs[id]
  {
    SubIsItsEffects(states, steps, id, i, j);
    SubIsItsEffects(states', steps', id, i', j');
    OthersDoNotMatter(states[i].subs[id], id, steps[i..j]);
    OthersDoNotMatter(states'[i'].subs[id], id, steps'[i'..j']);
  }

  // ---- The bus itself, taken one locked region or select at a time ----

  class Subscriber {
    var sub: Sub

    constructor ()
      ensures sub == NEW_SUB
    {
      sub := NEW_SUB;
    }

    /** The select of a sender already started for message p. */
    method Offer(p: nat, giveUp: bool) returns (accepted: bool)
      requires Able(sub, Select(p, giveUp))
      modifies this
      ensures sub == Selected(old(sub), p, giveUp) && accepted == Enters(old(sub), giveUp)
      ensures accepted <==> |old(sub).q.buf| < 1024 && !(old(sub).cancelled && giveUp)
      ensures sub.q.buf == if accepted then old(sub).q.buf + [p] else old(sub).q.buf
    {
      var started := sub.w.(ready := sub.w.ready - {p});
      if |sub.q.buf| < SUBSCRIBER_CAP && !(sub.cancelled && giveUp) {
        sub := sub.(w := started.(sent := started.sent + {p}),
                    q := sub.q.(buf := sub.q.buf + [p], entered := sub.q.entered + [p]));
        return true;
      }
      sub := sub.(w := started.(refused := started.refused + {p}));
      return false;
    }

    /** A whole sender of message p, up to its counter update; the subscriber may be gone by the time it runs. */
    method Send(p: nat, giveUp: bool) returns (accepted: bool)
      requires !sub.w.Has(p)
      modifies this
      ensures sub == Fanned(old(sub), p, giveUp) && accepted == Enters(old(sub), giveUp)
    {
      FannedIsItsMoves(sub, p, giveUp);
      sub := Begun(sub, p);
      accepted := Offer(p, giveUp);
      if accepted {
        sub := sub.(w := sub.w.(sent := sub.w.sent - {p}));
      } else {
        sub := sub.(w := sub.w.(refused := sub.w.refused - {p}));
      }
    }

    /**
      One turn of the drain: stop, or take a message and forward it, drop it or
      stop with it in hand.  A cancelled subscriber leaves it to the runtime
      whether either select stops.
     */
    method DrainOnce(stops: bool, leaves: bool, timesOut: bool) returns (dropped: bool)
      requires sub.q.drain.Idle? && (sub.q.buf != [] || sub.cancelled)
      modifies this
      ensures sub == Drained(old(sub), stops, leaves, timesOut)
      ensures dropped == (sub.late > old(sub).late)
      ensures var q, q' := old(sub).q, sub.q;
              var stopped := old(sub).cancelled && (stops || q.buf == []);
              var left, forwarded := old(sub).cancelled && leaves, !timesOut && |q.out| < 256;
              && (stopped ==> q' == q.(drain := Ended) && !dropped)
              && (!stopped ==> q'.buf == q.buf[1..] && q'.drain == if left then Ended else Idle)
              && (!stopped && !left && forwarded ==> q'.out == q.out + [q.buf[0]] && !dropped)
              && (stopped || left || !forwarded ==> q'.out == q.out)
              && (dropped <==> !stopped && !left && !forwarded)
              && q'.received == q.received && q'.entered == q.entered && sub.late == old(sub).late + if dropped then 1 else 0
    {
      if sub.cancelled && (stops || sub.q.buf == []) {
        sub := sub.(q := sub.q.(drain := Ended));
        return false;
      }
      var m := sub.q.buf[0];
      sub := sub.(q := sub.q.(drain := Holding(m), buf := sub.q.buf[1..]));
      if sub.cancelled && leaves {
        sub := sub.(q := sub.q.(drain := Ended));
        return false;
      }
      if !timesOut && |sub.q.out| < OUTBOUND_CAP {
        sub := sub.(q := sub.q.(drain := Idle, out := sub.q.out + [m]));
        return false;
      }
      sub := sub.(q := sub.q.(drain := Idle), late := sub.late + 1);
      return true;
    }
  }

  /** The moves of one turn of the drain, one after another. */
  function Drained(sub: Sub, stops: bool, leaves: bool, timesOut: bool): (sub': Sub)
    requires sub.q.drain.Idle? && (sub.q.buf != [] || sub.cancelled)
  {
    if sub.cancelled && (stops || sub.q.buf == []) then Moved(sub, Stop)
    else
      var taken := Moved(sub, Take);
      if sub.cancelled && leaves then Moved(taken, Stop)
      else if !timesOut && |taken.q.out| < OUTBOUND_CAP then Moved(taken, Forward)
      else Moved(Moved(taken, Timeout), CountLate)
  }

  /** How many of the buffers have room. */
  function RoomCount(subs: seq<Sub>): nat {
    if subs == [] then 0 else RoomCount(subs[..|subs| - 1]) + (if |subs[|subs| - 1].q.buf| < SUBSCRIBER_CAP then 1 else 0)
  }

  /** A sender by itself: the message enters the buffer if the select takes it, and the sender is done. */
  function Fanned(sub: Sub, p: nat, giveUp: bool): Sub {
    if Enters(sub, giveUp) then sub.(q := Entered(sub.q, p)) else sub
  }

  lemma FannedIsItsMoves(sub: Sub, p: nat, giveUp: bool)
    requires !sub.w.Has(p)
    ensures var begun := Begun(sub, p);
            var selected := Moved(begun, Select(p, giveUp));
            Moved(selected, if Enters(begun, giveUp) then CountSent(p) else CountRefused(p)) == Fanned(sub, p, giveUp)
  {
    assert sub.w.ready + {p} - {p} == sub.w.ready;
    assert sub.w.sent + {p} - {p} == sub.w.sent && sub.w.refused + {p} - {p} == sub.w.refused;
  }

  /** Without the first occurrence of an element. */
  function Removed<T(==)>(s: seq<T>, x: T): seq<T> {
    if s == [] then [] else if s[0] == x then s[1..] else [s[0]] + Removed(s[1..], x)
  }

  lemma {:induction false} RemovedAt<T>(s: seq<T>, x: T, k: nat)
    requires k <= |s| && x !in s[..k] && (k < |s| ==> s[k] == x)
    ensures Removed(s, x) == if k < |s| then s[..k] + s[k + 1..] else s
  {
    if k > 0 {
      assert s[..k][0] == s[0] && s[..k][1..] == s[1..][..k - 1];
      RemovedAt(s[1..], x, k - 1);
      assert s == [s[0]] + s[1..];
    }
  }

  lemma {:induction false} RemovedStaysDistinct<T>(s: seq<T>, x: T)
    requires Distinct(s)
    ensures Distinct(Removed(s, x)) && x !in Removed(s, x) && forall y :: y in Removed(s, x) ==> y in s
  {
    if s != [] {
      var rest := s[1..];
      assert s == [s[0]] + rest;
      forall k | 0 <= k < |rest| ensures rest[k] != s[0] { assert s[k + 1] != s[0]; }
      assert Distinct(rest);
      RemovedStaysDistinct(rest, x);
      var r, after := Removed(rest, x), Removed(s, x);
      assert after == if s[0] == x then rest else [s[0]] + r;
      if s[0] == x { assert x !in rest; } else { assert s[0] !in r && x !in [s[0]] + r; }
    }
  }

  /** Listed, not cancelled, and without senders of messages yet to be published. */
  ghost predicate Open(sub: Sub, published: nat) {
    sub.listed && !sub.cancelled && forall p: nat :: p >= published ==> !sub.w.Has(p)
  }

  lemma FannedStaysOpen(sub: Sub, p: nat)
    requires Open(sub, p)
    ensures Open(Fanned(sub, p, false), p + 1)
  {
  }

  class MessageBus {
    var subs: seq<Subscriber>
    var done: bool
    var published: nat
    var deliveredTotal: nat
    var droppedTotal: nat

    /** The list holds each subscriber once, and none that is cancelled or has senders left. */
    ghost predicate Valid()
      reads this, subs
    {
      && Distinct(subs)
      && forall i :: 0 <= i < |subs| ==> Open(subs[i].sub, published)
    }

    constructor ()
      ensures Valid() && subs == [] && !done && deliveredTotal == 0 && droppedTotal == 0
    {
      subs, done, published, deliveredTotal, droppedTotal := [], false, 0, 0, 0;
    }

    method SubscribeOutbound() returns (s: Subscriber)
      requires Valid()
      modifies this
      ensures Valid() && fresh(s) && s.sub == NEW_SUB && subs == old(subs) + [s]
      ensures done == old(done) && deliveredTotal == old(deliveredTotal) && droppedTotal == old(droppedTotal)
    {
      s := new Subscriber();
      subs := subs + [s];
    }

    method RemoveSubscriber(s: Subscriber)
      requires Valid()
      modifies this`subs, s
      ensures Valid() && s !in subs && subs == Removed(old(subs), s)
      ensures s.sub == Moved(old(s.sub), Unsubscribe) && s.sub.cancelled && !s.sub.listed
    {
      var i := 0;
      while i < |subs| && subs[i] != s
        invariant subs == old(subs) && s.sub == old(s.sub)
        invariant 0 <= i <= |subs| && s !in subs[..i]
      {
        i := i + 1;
      }
      RemovedAt(subs, s, i);
      RemovedStaysDistinct(subs, s);
      if i < |subs| {
        subs := subs[..i] + subs[i + 1..];
      }
      s.sub := s.sub.(listed := false, cancelled := true);
    }

    method Close()
      requires Valid()
      modifies this`subs, this`done, subs
      ensures Valid() && done && (if old(done) then subs == old(subs) else subs == [])
      ensures forall s :: s in old(subs) ==> s.sub == if old(done) then old(s.sub) else Closed(old(s.sub))
      ensures !old(done) ==> forall s :: s in old(subs) ==> s.sub.cancelled && !s.sub.listed
    {
      if done { return; }
      done := true;
      var i := 0;
      while i < |subs|
        invariant subs == old(subs) && done
        invariant 0 <= i <= |subs|
        invariant forall k :: 0 <= k < i ==> subs[k].sub == Closed(old(subs[k].sub))
        invariant forall k :: i <= k < |subs| ==> subs[k].sub == old(subs[k].sub)
      {
        subs[i].sub := subs[i].sub.(listed := false, cancelled := true);
        i := i + 1;
      }
      subs := [];
    }

    /** Runs one sender per target, each to its end before the next starts. */
    method FanOut(targets: seq<Subscriber>, p: nat, ghost before: seq<Sub>)
      requires Distinct(targets)
      requires |before| == |targets|
      requires forall k :: 0 <= k < |targets| ==> targets[k].sub == before[k]
      requires forall k :: 0 <= k < |targets| ==> !before[k].cancelled && !before[k].w.Has(p)
      modifies this`deliveredTotal, this`droppedTotal, targets
      ensures forall k :: 0 <= k < |targets| ==> targets[k].sub == Fanned(before[k], p, false)
      ensures deliveredTotal == old(deliveredTotal) + RoomCount(before)
      ensures deliveredTotal + droppedTotal == old(deliveredTotal) + old(droppedTotal) + |targets|
    {
      var i := 0;
      while i < |targets|
        invariant 0 <= i <= |targets|
        invariant forall k :: 0 <= k < i ==> targets[k].sub == Fanned(before[k], p, false)
        invariant forall k :: i <= k < |targets| ==> targets[k].sub == before[k]
        invariant deliveredTotal + droppedTotal == old(deliveredTotal) + old(droppedTotal) + i
        invariant deliveredTotal == old(deliveredTotal) + RoomCount(before[..i])
      {
        assert before[..i + 1][..i] == before[..i];
        var accepted := targets[i].Send(p, false);
        if accepted {
          deliveredTotal := deliveredTotal + 1;
        } else {
          droppedTotal := droppedTotal + 1;
        }
        i := i + 1;
      }
      assert before[..i] == before;
    }

    /** A publish by itself: each listed subscriber with room gets the message, and every sender is counted. */
    method PublishOutbound()
      requires Valid()
      modifies this, subs
      ensures Valid() && subs == old(subs) && done == old(done)
      ensures forall k :: 0 <= k < |subs| ==> subs[k].sub == if done then old(subs[k].sub) else Fanned(old(subs[k].sub), old(published), false)
      ensures forall k :: 0 <= k < |subs| ==>
                var buf := old(subs[k].sub.q.buf);
                subs[k].sub.q.buf == if done || |buf| >= SUBSCRIBER_CAP then buf else buf + [old(published)]
      ensures deliveredTotal + droppedTotal == old(deliveredTotal) + old(droppedTotal) + (if done then 0 else |subs|)
      ensures deliveredTotal == old(deliveredTotal) + (if done then 0 else RoomCount(old(Subs())))
    {
      if done { return; }
      ghost var before := Subs();
      var p, targets := published, subs;
      published := published + 1;
      FanOut(targets, p, before);
      forall k | 0 <= k < |subs| ensures Open(subs[k].sub, published) { FannedStaysOpen(before[k], p); }
    }

    /** The state of each listed subscriber. */
    ghost function Subs(): (r: seq<Sub>)
      reads this, subs
      ensures |r| == |subs| && forall i :: 0 <= i < |subs| ==> r[i] == subs[i].sub
    {
      seq(|subs|, i requires 0 <= i < |subs| reads this, subs => subs[i].sub)
    }
  }
}
