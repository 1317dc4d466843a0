/**
  Capability requests over one WebSocket client.  Requesters, a responder and a
  disconnecting thread share a table of pending requests, a cancel flag and one
  reply channel per request that holds a single message.  One step is one lock
  region, channel operation or flag access; any interleaving is allowed.
 */
module WebSocket {
  import opened Runs
  import opened Wrappers

  datatype Response = Response(requestId: string, success: bool, body: string)

  function Disconnected(id: string): Response { Response(id, false, "device disconnected") }

  /** Where a requester stands in RequestCapability. */
  datatype Pc =
    | Found               // has looked up the client
    | Registered          // its channel is in the table
    | Sending             // saw the connection alive, about to enqueue
    | Refused             // enqueue failed, about to remove its entry
    | Waiting             // enqueued, waiting for a reply or its own deadline
    | Expired             // gave up, about to remove its entry
    | Failed              // returned an error
    | Answered(reply: Response)

  /** History: what became of the right to send on this request's channel. */
  datatype Token = Unissued | InTable | WithResponder(k: nat) | WithDisconnect | Used | Withdrawn

  datatype Request = Request(id: string, pc: Pc, channel: seq<Response>, sends: nat, token: Token, late: bool)

  datatype Disconnect = Connected | Removed | Cancelled | Failing(pending: map<string, nat>) | Finished

  datatype Flight = Flight(to: nat, reply: Response)

  datatype State = State(disc: Disconnect, done: bool, table: map<string, nat>,
                         requests: map<nat, Request>, flights: map<nat, Flight>)

  datatype Step =
    | Begin(t: nat, id: string)
    | Register(t: nat)
    | CannotEncode(t: nat)
    | CheckDone(t: nat)
    | Enqueue(t: nat)
    | EnqueueFails(t: nat)
    | Receive(t: nat)
    | Expire(t: nat)
    | Unregister(t: nat)
    | Take(k: nat, reply: Response)
    | Deliver(k: nat)
    | Remove
    | Cancel
    | Collect
    | FailOne(id: string)
    | FinishFailing

  const INIT := State(Connected, false, map[], map[], map[])

  predicate At(s: State, t: nat, pc: Pc) { t in s.requests && s.requests[t].pc == pc }

  predicate Enabled(s: State, step: Step) {
    match step
    case Begin(t, id) => s.disc == Connected && t !in s.requests
    case Register(t) => At(s, t, Found)
    case CannotEncode(t) => At(s, t, Registered)
    case CheckDone(t) => At(s, t, Registered)
    case Enqueue(t) => At(s, t, Sending)
    case EnqueueFails(t) => At(s, t, Sending)
    case Receive(t) => At(s, t, Waiting) && s.requests[t].channel != []
    case Expire(t) => At(s, t, Waiting)
    case Unregister(t) => At(s, t, Refused) || At(s, t, Expired)
    case Take(k, reply) => k !in s.flights && reply.requestId != "" && reply.requestId in s.table
    // A channel with a message in it makes a plain send wait.
    case Deliver(k) => k in s.flights && s.flights[k].to in s.requests && s.requests[s.flights[k].to].channel == []
    case Remove => s.disc == Connected
    case Cancel => s.disc == Removed
    case Collect => s.disc == Cancelled
    case FailOne(id) => s.disc.Failing? && id in s.disc.pending && s.disc.pending[id] in s.requests
    case FinishFailing => s.disc == Failing(map[])
  }

  function SetPc(s: State, t: nat, pc: Pc): State
    requires t in s.requests
  {
    s.(requests := s.requests[t := s.requests[t].(pc := pc)])
  }

  function Put(r: Request, reply: Response): Request {
    r.(channel := r.channel + [reply], sends := r.sends + 1, token := Used)
  }

  function Next(s: State, step: Step): State
    requires Enabled(s, step)
    requires step.Take? ==> s.table[step.reply.requestId] in s.requests
  {
    match step
    case Begin(t, id) => s.(requests := s.requests[t := Request(id, Found, [], 0, Unissued, false)])
    case Register(t) =>
      var r := s.requests[t];
      s.(table := s.table[r.id := t], requests := s.requests[t := r.(pc := Registered, token := InTable, late := s.done)])
    case CannotEncode(t) => SetPc(s, t, Refused)
    case CheckDone(t) => SetPc(s, t, if s.done then Refused else Sending)
    case Enqueue(t) => SetPc(s, t, Waiting)
    case EnqueueFails(t) => SetPc(s, t, Refused)
    case Receive(t) =>
      var r := s.requests[t];
      s.(requests := s.requests[t := r.(pc := Answered(r.channel[0]), channel := r.channel[1..])])
    case Expire(t) => SetPc(s, t, Expired)
    case Unregister(t) =>
      var r := s.requests[t];
      s.(table := s.table - {r.id},
         requests := s.requests[t := r.(pc := Failed, token := if r.token == InTable then Withdrawn else r.token)])
    case Take(k, reply) =>
      var t := s.table[reply.requestId];
      s.(table := s.table - {reply.requestId}, flights := s.flights[k := Flight(t, reply)],
         requests := s.requests[t := s.requests[t].(token := WithResponder(k))])
    case Deliver(k) =>
      var f := s.flights[k];
      s.(flights := s.flights - {k}, requests := s.requests[f.to := Put(s.requests[f.to], f.reply)])
    case Remove => s.(disc := Removed)
    case Cancel => s.(disc := Cancelled, done := true)
    case Collect =>
      s.(disc := Failing(s.table), table := map[],
         requests := map t | t in s.requests ::
           if s.requests[t].token == InTable then s.requests[t].(token := WithDisconnect) else s.requests[t])
    case FailOne(id) =>
      var t := s.disc.pending[id];
      var r := s.requests[t];
      s.(disc := Failing(s.disc.pending - {id}),
         requests := s.requests[t := if r.channel == [] then Put(r, Disconnected(id)) else r])
    case FinishFailing => s.(disc := Finished)
  }

  // ---- What every step keeps ----

  /** Between registering and returning. */
  predicate Live(pc: Pc) { pc.Registered? || pc.Sending? || pc.Waiting? || pc.Refused? || pc.Expired? }

  /** No two requests use an ID at the same time; it may be used again after a return. */
  ghost predicate DistinctIds(s: State) {
    forall t, u :: t in s.requests && u in s.requests && t != u && Live(s.requests[t].pc) && Live(s.requests[u].pc)
      ==> s.requests[t].id != s.requests[u].id
  }

  ghost predicate TableOk(s: State) {
    && (forall id :: id in s.table ==>
          s.table[id] in s.requests && s.requests[s.table[id]].id == id && s.requests[s.table[id]].token == InTable)
    && (forall t :: t in s.requests && s.requests[t].token == InTable ==>
          s.requests[t].id in s.table && s.table[s.requests[t].id] == t)
  }

  ghost predicate FlightsOk(s: State) {
    && (forall k :: k in s.flights ==>
          && s.flights[k].to in s.requests && s.requests[s.flights[k].to].token == WithResponder(k)
          && s.flights[k].reply.requestId == s.requests[s.flights[k].to].id)
    && (forall t :: t in s.requests && s.requests[t].token.WithResponder? ==>
          s.requests[t].token.k in s.flights && s.flights[s.requests[t].token.k].to == t)
  }

  ghost predicate DisconnectOk(s: State) {
    && (s.done <==> s.disc.Cancelled? || s.disc.Failing? || s.disc.Finished?)
    && (s.disc.Failing? ==> forall id :: id in s.disc.pending ==>
          && s.disc.pending[id] in s.requests && s.requests[s.disc.pending[id]].id == id
          && s.requests[s.disc.pending[id]].token == WithDisconnect)
    && (forall t :: t in s.requests && s.requests[t].token == WithDisconnect ==>
          s.disc.Failing? && s.requests[t].id in s.disc.pending && s.disc.pending[s.requests[t].id] == t)
  }

  predicate Collected(s: State) { s.disc.Failing? || s.disc.Finished? }

  /** One request on its own. */
  predicate RequestOk(r: Request, done: bool, collected: bool) {
    && (r.token == Unissued <==> r.pc == Found)
    && (r.token == Used <==> r.sends == 1) && r.sends <= 1
    && (r.channel != [] ==> r.sends == 1 && |r.channel| == 1 && r.channel[0].requestId == r.id && !r.pc.Answered?)
    && (r.pc.Answered? ==> r.sends == 1 && r.pc.reply.requestId == r.id)
    && (r.token == Withdrawn ==> r.pc == Failed) && (r.token == InTable ==> Live(r.pc))
    && (r.token == Used && (r.pc.Registered? || r.pc.Sending? || r.pc.Waiting?) ==> r.channel != [])
    && (r.late ==> done && (r.pc.Registered? || r.pc.Refused? || r.pc.Failed?))
    && (collected && r.token == InTable ==> r.late)
  }

  ghost predicate RequestsOk(s: State) {
    forall t :: t in s.requests ==> RequestOk(s.requests[t], s.done, Collected(s))
  }

  ghost predicate Inv(s: State) {
    TableOk(s) && FlightsOk(s) && DisconnectOk(s) && RequestsOk(s)
  }

  predicate Takeable(s: State, step: Step) {
    Enabled(s, step) && (step.Take? ==> s.table[step.reply.requestId] in s.requests)
  }

  ghost predicate StepAt(states: seq<State>, steps: seq<Step>, i: int)
    requires 0 <= i < |steps| < |states|
  {
    Takeable(states[i], steps[i]) && states[i + 1] == Next(states[i], steps[i])
  }

  /** The states a run passes through, with no ID used by two requests at the same time. */
  ghost predicate Run(states: seq<State>, steps: seq<Step>) {
    && |states| == |steps| + 1 && states[0] == INIT
    && (forall i {:trigger DistinctIds(states[i])} :: 0 <= i < |states| ==> DistinctIds(states[i]))
    && (forall i {:trigger StepAt(states, steps, i)} :: 0 <= i < |steps| ==> StepAt(states, steps, i))
  }

  // A step that changes one request leaves alone whatever does not concern its token.

  ghost predicate OnlyRequest(s: State, s': State, t: nat) {
    && t in s.requests && t in s'.requests && s'.requests == s.requests[t := s'.requests[t]]
    && s'.requests[t].id == s.requests[t].id
  }

  lemma TableKept(s: State, s': State, t: nat)
    requires TableOk(s) && OnlyRequest(s, s', t) && s'.table == s.table
    requires s'.requests[t].token == InTable <==> s.requests[t].token == InTable
    ensures TableOk(s')
  {
  }

  lemma FlightsKept(s: State, s': State, t: nat)
    requires FlightsOk(s) && OnlyRequest(s, s', t) && s'.flights == s.flights
    requires s'.requests[t].token == s.requests[t].token
          || (!s'.requests[t].token.WithResponder? && !s.requests[t].token.WithResponder?)
    ensures FlightsOk(s')
  {
  }

  lemma DisconnectKept(s: State, s': State, t: nat)
    requires DisconnectOk(s) && OnlyRequest(s, s', t) && s'.disc == s.disc && s'.done == s.done
    requires s'.requests[t].token == WithDisconnect <==> s.requests[t].token == WithDisconnect
    ensures DisconnectOk(s')
  {
  }

  lemma RequestsKept(s: State, s': State, t: nat)
    requires RequestsOk(s) && OnlyRequest(s, s', t) && s'.done == s.done && Collected(s') == Collected(s)
    requires RequestOk(s'.requests[t], s.done, Collected(s))
    ensures RequestsOk(s')
  {
  }

  predicate OwnStep(step: Step) {
    step.CannotEncode? || step.CheckDone? || step.Enqueue? || step.EnqueueFails? || step.Receive? || step.Expire?
  }

  lemma OwnStepKeepsInv(s: State, step: Step)
    requires Inv(s) && Enabled(s, step) && OwnStep(step)
    ensures Inv(Next(s, step))
  {
    var s', t := Next(s, step), step.t;
    assert step.Receive? ==> s.requests[t].channel[1..] == [];
    TableKept(s, s', t);
    FlightsKept(s, s', t);
    DisconnectKept(s, s', t);
    RequestsKept(s, s', t);
  }

  lemma BeginKeepsInv(s: State, t: nat, id: string)
    requires Inv(s) && Enabled(s, Begin(t, id))
    ensures Inv(Next(s, Begin(t, id)))
  {
    var s' := Next(s, Begin(t, id));
    assert forall u :: u in s.requests ==> u in s'.requests && s'.requests[u] == s.requests[u];
  }

  lemma RegisterKeepsInv(s: State, t: nat)
    requires Inv(s) && Enabled(s, Register(t)) && DistinctIds(Next(s, Register(t)))
    ensures Inv(Next(s, Register(t)))
  {
    var s' := Next(s, Register(t));
    FlightsKept(s, s', t);
    DisconnectKept(s, s', t);
    RequestsKept(s, s', t);
  }

  /** A request takes its own entry out of the table, if it has one. */
  lemma TakenFromTable(s: State, s': State, t: nat)
    requires TableOk(s) && OnlyRequest(s, s', t)
    requires s.requests[t].id in s.table ==> s.table[s.requests[t].id] == t
    requires s'.table == s.table - {s.requests[t].id} && s'.requests[t].token != InTable
    ensures TableOk(s')
  {
  }

  /** The entry under a live request's ID is its own. */
  lemma EntryIsOwn(s: State, t: nat)
    requires Inv(s) && DistinctIds(s) && t in s.requests && Live(s.requests[t].pc) && s.requests[t].id in s.table
    ensures s.table[s.requests[t].id] == t
  {
    var u := s.table[s.requests[t].id];
    assert RequestOk(s.requests[u], s.done, Collected(s));
  }

  lemma UnregisterKeepsInv(s: State, t: nat)
    requires Inv(s) && DistinctIds(s) && Enabled(s, Unregister(t))
    ensures Inv(Next(s, Unregister(t)))
  {
    var s' := Next(s, Unregister(t));
    if s.requests[t].id in s.table { EntryIsOwn(s, t); }
    TakenFromTable(s, s', t);
    UnregisterKeepsRest(s, t, s');
  }

  lemma UnregisterKeepsRest(s: State, t: nat, s': State)
    requires Inv(s) && Enabled(s, Unregister(t)) && s' == Next(s, Unregister(t))
    ensures FlightsOk(s') && DisconnectOk(s') && RequestsOk(s')
  {
    FlightsKept(s, s', t);
    DisconnectKept(s, s', t);
    RequestsKept(s, s', t);
  }

  lemma TakeKeepsInv(s: State, k: nat, reply: Response)
    requires Inv(s) && DistinctIds(s) && Enabled(s, Take(k, reply))
    ensures Inv(Next(s, Take(k, reply)))
  {
    var s', t := Next(s, Take(k, reply)), s.table[reply.requestId];
    DisconnectKept(s, s', t);
    RequestsKept(s, s', t);
    TakenFromTable(s, s', t);
    GivenToResponder(s, s', t, k);
  }

  lemma GivenToResponder(s: State, s': State, t: nat, k: nat)
    requires FlightsOk(s) && OnlyRequest(s, s', t) && k !in s.flights
    requires !s.requests[t].token.WithResponder? && s'.requests[t].token == WithResponder(k)
    requires k in s'.flights && s'.flights == s.flights[k := s'.flights[k]]
    requires s'.flights[k].to == t && s'.flights[k].reply.requestId == s.requests[t].id
    ensures FlightsOk(s')
  {
  }

  lemma TakenFromResponder(s: State, s': State, t: nat, k: nat)
    requires FlightsOk(s) && OnlyRequest(s, s', t) && k in s.flights && s.flights[k].to == t
    requires s'.flights == s.flights - {k} && !s'.requests[t].token.WithResponder?
    ensures FlightsOk(s')
  {
  }

  lemma DeliverKeepsInv(s: State, k: nat)
    requires Inv(s) && Enabled(s, Deliver(k))
    ensures Inv(Next(s, Deliver(k)))
  {
    var s', t, reply := Next(s, Deliver(k)), s.flights[k].to, s.flights[k].reply;
    assert s'.requests[t] == Put(s.requests[t], reply) && [] + [reply] == [reply];
    TakenFromResponder(s, s', t, k);
    TableKept(s, s', t);
    DisconnectKept(s, s', t);
    RequestsKept(s, s', t);
  }

  lemma DisconnectStepKeepsInv(s: State, step: Step)
    requires Inv(s) && Enabled(s, step) && (step.Remove? || step.Cancel? || step.FinishFailing?)
    ensures Inv(Next(s, step))
  {
  }

  lemma CollectMovesTokens(s: State, s': State)
    requires Inv(s) && Enabled(s, Collect) && s' == Next(s, Collect)
    ensures TableOk(s') && FlightsOk(s')
  {
  }

  lemma CollectedArePending(s: State, s': State)
    requires Inv(s) && Enabled(s, Collect) && s' == Next(s, Collect)
    ensures DisconnectOk(s')
  {
  }

  lemma CollectKeepsInv(s: State)
    requires Inv(s) && Enabled(s, Collect)
    ensures Inv(Next(s, Collect))
  {
    var s' := Next(s, Collect);
    CollectMovesTokens(s, s');
    CollectedArePending(s, s');
    forall t | t in s'.requests ensures RequestOk(s'.requests[t], s'.done, true) {
      assert RequestOk(s.requests[t], s.done, false);
    }
  }

  lemma FailOneKeepsInv(s: State, id: string)
    requires Inv(s) && DistinctIds(s) && Enabled(s, FailOne(id))
    ensures Inv(Next(s, FailOne(id)))
  {
    var s', t := Next(s, FailOne(id)), s.disc.pending[id];
    assert s'.requests[t].channel == [Disconnected(id)];
    TableKept(s, s', t);
    FlightsKept(s, s', t);
    RequestsKept(s, s', t);
  }

  lemma StepKeepsInv(s: State, step: Step)
    requires Inv(s) && DistinctIds(s) && Enabled(s, step) && DistinctIds(Next(s, step))
    ensures Inv(Next(s, step))
  {
    if OwnStep(step) {
      OwnStepKeepsInv(s, step);
    } else if step.Remove? || step.Cancel? || step.FinishFailing? {
      DisconnectStepKeepsInv(s, step);
    } else {
      match step
      case Begin(t, id) => BeginKeepsInv(s, t, id);
      case Register(t) => RegisterKeepsInv(s, t);
      case Unregister(t) => UnregisterKeepsInv(s, t);
      case Take(k, reply) => TakeKeepsInv(s, k, reply);
      case Deliver(k) => DeliverKeepsInv(s, k);
      case Collect => CollectKeepsInv(s);
      case FailOne(id) => FailOneKeepsInv(s, id);
    }
  }

  lemma {:induction false} InvAlways(states: seq<State>, steps: seq<Step>, i: nat)
    requires Run(states, steps) && i < |states|
    ensures Inv(states[i])
  {
    if i > 0 {
      InvAlways(states, steps, i - 1);
      assert StepAt(states, steps, i - 1) && DistinctIds(states[i - 1]) && DistinctIds(states[i]);
      StepKeepsInv(states[i - 1], steps[i - 1]);
    }
  }

  // ---- Nobody is stranded ----

  /**
    Once the disconnecting thread has finished, a requester that got past its
    enqueue has its reply in its channel or a responder about to put it there;
    its entry is no longer in the table.
   */
  lemma NoStrandedWaiter(states: seq<State>, steps: seq<Step>, i: nat, t: nat)
    requires Run(states, steps) && i < |states| && states[i].disc == Finished && At(states[i], t, Waiting)
    ensures var s, r := states[i], states[i].requests[t];
            && r.id !in s.table
            && (r.channel != [] || exists k :: k in s.flights && s.flights[k].to == t && Enabled(s, Deliver(k)))
  {
    InvAlways(states, steps, i);
    var s, r := states[i], states[i].requests[t];
    assert RequestOk(r, s.done, true);
    assert r.token != InTable && r.token != WithDisconnect;
    assert DistinctIds(states[i]);
    if r.id in s.table {
      EntryIsOwn(s, t);
      assert false;
    }
    if r.channel == [] {
      var k := r.token.k;
      assert Enabled(s, Deliver(k));
    }
  }

  lemma LateStaysLate(s: State, step: Step, t: nat)
    requires TableOk(s) && RequestsOk(s) && Enabled(s, step) && t in s.requests && s.requests[t].late
    ensures t in Next(s, step).requests && Next(s, step).requests[t].late
  {
    assert RequestOk(s.requests[t], s.done, Collected(s));
  }

  lemma LateIsRefused(s: State, t: nat)
    requires RequestsOk(s) && t in s.requests && s.requests[t].late
    ensures var pc := s.requests[t].pc; pc == Registered || pc == Refused || pc == Failed
  {
    assert RequestOk(s.requests[t], s.done, Collected(s));
  }

  /** A request registered after the cancel never gets past the enqueue. */
  lemma {:induction false} LateRequestsAreRefused(states: seq<State>, steps: seq<Step>, i: nat, j: nat, t: nat)
    requires Run(states, steps) && i < j < |states|
    requires states[i].done && steps[i] == Register(t)
    ensures t in states[j].requests && states[j].requests[t].late
    ensures var pc := states[j].requests[t].pc; pc == Registered || pc == Refused || pc == Failed
  {
    assert StepAt(states, steps, j - 1);
    if j > i + 1 {
      LateRequestsAreRefused(states, steps, i, j - 1, t);
      InvAlways(states, steps, j - 1);
      LateStaysLate(states[j - 1], steps[j - 1], t);
    }
    InvAlways(states, steps, j);
    LateIsRefused(states[j], t);
  }

  // ---- At most one reply, and the right one ----

  /** Each channel is sent to at most once, and the reply a requester returns answers its own request. */
  lemma RepliesMatch(states: seq<State>, steps: seq<Step>, i: nat, t: nat)
    requires Run(states, steps) && i < |states| && t in states[i].requests
    ensures var r := states[i].requests[t];
            && r.sends <= 1
            && (r.pc.Answered? ==> r.pc.reply.requestId == r.id)
  {
    InvAlways(states, steps, i);
  }

  /** The responder's plain send always finds room: whoever took an entry can deliver at once. */
  lemma SendNeverBlocks(states: seq<State>, steps: seq<Step>, i: nat, k: nat)
    requires Run(states, steps) && i < |states| && k in states[i].flights
    ensures Enabled(states[i], Deliver(k))
  {
    InvAlways(states, steps, i);
    var s := states[i];
    assert RequestOk(s.requests[s.flights[k].to], s.done, Collected(s));
  }

  /** The disconnecting thread's send never takes its default branch. */
  lemma FailureIsAlwaysDelivered(states: seq<State>, steps: seq<Step>, i: nat, id: string)
    requires Run(states, steps) && i < |states| && states[i].disc.Failing? && id in states[i].disc.pending
    ensures Enabled(states[i], FailOne(id))
    ensures states[i].requests[states[i].disc.pending[id]].channel == []
  {
    InvAlways(states, steps, i);
    var s := states[i];
    assert RequestOk(s.requests[s.disc.pending[id]], s.done, Collected(s));
  }

  // ---- Nothing is left hanging ----

  predicate Returned(pc: Pc) { pc.Failed? || pc.Answered? }

  /** The steps a request still has before it returns, with what it waits for. */
  function Remaining(r: Request): nat {
    match r.pc
    case Found => 5
    case Registered => 4
    case Sending => 3
    case Waiting => if r.channel == [] then 2 else 1
    case Refused => 1
    case Expired => 1
    case _ => 0
  }

  /** A step of the request itself that needs no deadline, or the delivery of its reply. */
  predicate Furthers(s: State, step: Step, t: nat) {
    match step
    case Register(u) => u == t
    case CheckDone(u) => u == t
    case EnqueueFails(u) => u == t
    case Unregister(u) => u == t
    case Receive(u) => u == t
    case Deliver(k) => k in s.flights && s.flights[k].to == t
    case _ => false
  }

  /** After the disconnect, a request that has not returned has a step of its own or of its responder that brings it nearer. */
  lemma NoDeadlock(states: seq<State>, steps: seq<Step>, i: nat, t: nat) returns (step: Step)
    requires Run(states, steps) && i < |states| && states[i].disc == Finished
    requires t in states[i].requests && !Returned(states[i].requests[t].pc)
    ensures Enabled(states[i], step) && Furthers(states[i], step, t)
    ensures t in Next(states[i], step).requests
    ensures Remaining(Next(states[i], step).requests[t]) < Remaining(states[i].requests[t]) <= 5
  {
    InvAlways(states, steps, i);
    var s, r := states[i], states[i].requests[t];
    match r.pc
    case Found => step := Register(t);
    case Registered => step := CheckDone(t);
    case Sending => step := EnqueueFails(t);
    case Refused => step := Unregister(t);
    case Expired => step := Unregister(t);
    case Waiting =>
      NoStrandedWaiter(states, steps, i, t);
      if r.channel != [] {
        step := Receive(t);
      } else {
        var k :| k in s.flights && s.flights[k].to == t && Enabled(s, Deliver(k));
        step := Deliver(k);
      }
  }

  /** And no step of anybody puts it back, so that many such steps return it. */
  lemma NoStepPutsBack(s: State, step: Step, t: nat)
    requires Enabled(s, step) && (step.Take? ==> s.table[step.reply.requestId] in s.requests) && t in s.requests
    ensures t in Next(s, step).requests && Remaining(Next(s, step).requests[t]) <= Remaining(s.requests[t])
  {
  }

  // ---- With a shared ID the guarantee is lost ----

  /** t waits with an empty channel that nobody holds any more. */
  ghost predicate Orphaned(s: State, t: nat) {
    && At(s, t, Waiting) && s.requests[t].channel == []
    && (forall id :: id in s.table ==> s.table[id] != t)
    && (forall k :: k in s.flights ==> s.flights[k].to != t)
    && (s.disc.Failing? ==> forall id :: id in s.disc.pending ==> s.disc.pending[id] != t)
  }

  /** Nothing but its own deadline ever ends an orphan's wait, not even the disconnect. */
  lemma OrphansStayOrphans(s: State, t: nat, step: Step)
    requires Orphaned(s, t) && Enabled(s, step) && (step.Take? ==> s.table[step.reply.requestId] in s.requests)
    requires step != Expire(t)
    ensures Orphaned(Next(s, step), t)
  {
  }

  /** What a step makes of a state, if it can be taken there. */
  function Taken(s: State, step: Step): Option<State> {
    if Takeable(s, step) then Some(Next(s, step)) else None
  }

  /** Some continuation leaves one of the two waiting for good. */
  ghost predicate CanStrand(s: State, t: nat, u: nat) {
    exists steps, end :: Leads(Taken, s, steps, end) && (Orphaned(end, t) || Orphaned(end, u))
  }

  /** Nobody has a channel to a request that is neither in the table nor under way. */
  lemma HolderHasToken(s: State, t: nat)
    requires Inv(s) && t in s.requests && (s.requests[t].token == InTable || s.requests[t].token == Unissued)
    ensures s.requests[t].channel == []
    ensures forall k :: k in s.flights ==> s.flights[k].to != t
    ensures s.disc.Failing? ==> forall id :: id in s.disc.pending ==> s.disc.pending[id] != t
    ensures s.requests[t].token == Unissued ==> forall id :: id in s.table ==> s.table[id] != t
    ensures s.requests[t].token == InTable ==> forall id :: id in s.table && id != s.requests[t].id ==> s.table[id] != t
  {
    assert RequestOk(s.requests[t], s.done, Collected(s));
  }

  /** The second registration overwrites the entry of the first, which goes on to wait. */
  lemma StrandOlder(s: State, t: nat, u: nat) returns (steps: seq<Step>, end: State)
    requires Inv(s) && Enabled(s, Register(t)) && u in s.requests && u != t && s.requests[u].id == s.requests[t].id
    requires s.requests[u].token == InTable
    requires var pc := s.requests[u].pc; pc == Waiting || pc == Sending || (pc == Registered && !s.done)
    ensures Leads(Taken, Next(s, Register(t)), steps, end) && Orphaned(end, u)
  {
    HolderHasToken(s, u);
    var from := Next(s, Register(t));
    steps, end := [], from;
    if s.requests[u].pc == Registered {
      Then(Taken, from, steps, end, CheckDone(u), Next(end, CheckDone(u)));
      steps, end := steps + [CheckDone(u)], Next(end, CheckDone(u));
    }
    if s.requests[u].pc != Waiting {
      Then(Taken, from, steps, end, Enqueue(u), Next(end, Enqueue(u)));
      steps, end := steps + [Enqueue(u)], Next(end, Enqueue(u));
    }
  }

  /** The step by which a live request gives up, if it has not yet. */
  function GiveUp(pc: Pc, u: nat): Option<Step> {
    match pc
    case Registered => Some(CannotEncode(u))
    case Sending => Some(EnqueueFails(u))
    case Waiting => Some(Expire(u))
    case _ => None
  }

  /** The second request registers and goes on to wait. */
  lemma NewerWaits(s: State, t: nat) returns (steps: seq<Step>, end: State)
    requires t in s.requests && s.requests[t].pc == Registered && !s.done
    ensures Leads(Taken, s, steps, end) && end == SetPc(s, t, Waiting)
  {
    var mid := SetPc(s, t, Sending);
    steps := [CheckDone(t), Enqueue(t)];
    end := SetPc(mid, t, Waiting);
    assert steps[1..] == [Enqueue(t)] && steps[1..][1..] == [];
    assert Leads(Taken, mid, steps[1..], end);
  }

  /** The first request gives up and removes whatever entry is under its ID. */
  lemma OlderLeaves(s: State, steps: seq<Step>, mid: State, u: nat) returns (steps': seq<Step>, end: State)
    requires Leads(Taken, s, steps, mid) && u in mid.requests && Live(mid.requests[u].pc)
    ensures Leads(Taken, s, steps', end) && end.table == mid.table - {mid.requests[u].id}
    ensures end.flights == mid.flights && end.disc == mid.disc
    ensures forall t :: t in mid.requests && t != u ==> t in end.requests && end.requests[t] == mid.requests[t]
  {
    var after := mid;
    steps', after := OlderGivesUp(s, steps, mid, u);
    end := Next(after, Unregister(u));
    Then(Taken, s, steps', after, Unregister(u), end);
    steps' := steps' + [Unregister(u)];
  }

  lemma OlderGivesUp(s: State, steps: seq<Step>, mid: State, u: nat) returns (steps': seq<Step>, end: State)
    requires Leads(Taken, s, steps, mid) && u in mid.requests && Live(mid.requests[u].pc)
    ensures Leads(Taken, s, steps', end) && (At(end, u, Refused) || At(end, u, Expired))
    ensures u in end.requests && end == mid.(requests := mid.requests[u := end.requests[u]])
    ensures end.requests[u].id == mid.requests[u].id
  {
    steps', end := steps, mid;
    var step := GiveUp(mid.requests[u].pc, u);
    if step.Some? {
      end := Next(mid, step.value);
      Then(Taken, s, steps, mid, step.value, end);
      steps' := steps + [step.value];
    }
  }

  /** The first request gives up and removes the entry of the second, which goes on to wait. */
  lemma StrandNewer(s: State, t: nat, u: nat) returns (steps: seq<Step>, end: State)
    requires Inv(s) && Enabled(s, Register(t)) && u in s.requests && u != t && s.requests[u].id == s.requests[t].id
    requires Live(s.requests[u].pc) && !s.done
    ensures Leads(Taken, Next(s, Register(t)), steps, end) && Orphaned(end, t)
  {
    assert RequestOk(s.requests[t], s.done, Collected(s));
    HolderHasToken(s, t);
    var from := Next(s, Register(t));
    var mid;
    steps, mid := NewerWaits(from, t);
    steps, end := OlderLeaves(from, steps, mid, u);
    assert end.table == s.table[s.requests[t].id := t] - {s.requests[t].id};
  }

  /** A reply for the request is in its channel or in somebody's hands. */
  ghost predicate Provided(s: State, t: nat)
    requires t in s.requests
  {
    || s.requests[t].channel != []
    || (exists k :: k in s.flights && s.flights[k].to == t)
    || (s.disc.Failing? && exists id :: id in s.disc.pending && s.disc.pending[id] == t)
  }

  /** After the cancel: either it will not wait, or it will not wait in vain. */
  ghost predicate Secure(s: State, t: nat) {
    && s.done && t in s.requests && s.requests[t].pc != Found
    && (s.requests[t].pc == Sending || s.requests[t].pc == Waiting ==> Provided(s, t))
  }

  lemma StepKeepsSecure(s: State, step: Step, t: nat, s': State)
    requires Secure(s, t) && Takeable(s, step) && s' == Next(s, step)
    ensures Secure(s', t)
  {
    assert s'.done && t in s'.requests;
    if s.requests[t].pc == Sending || s.requests[t].pc == Waiting { StepKeepsProvided(s, step, t, s'); }
  }

  lemma StepKeepsProvided(s: State, step: Step, t: nat, s': State)
    requires t in s.requests && Provided(s, t) && Takeable(s, step) && s' == Next(s, step)
    ensures t in s'.requests && (Provided(s', t) || s'.requests[t].pc.Answered?)
  {
    if s.requests[t].channel != [] {
    } else if exists k :: k in s.flights && s.flights[k].to == t {
      var k :| k in s.flights && s.flights[k].to == t;
      assert step != Deliver(k) ==> k in s'.flights && s'.flights[k].to == t;
    } else {
      var id :| id in s.disc.pending && s.disc.pending[id] == t;
      assert step != FailOne(id) ==> s'.disc.Failing? && id in s'.disc.pending && s'.disc.pending[id] == t;
    }
  }

  lemma {:induction false} SecureStays(s: State, steps: seq<Step>, end: State, t: nat)
    requires Secure(s, t) && Leads(Taken, s, steps, end)
    ensures !Orphaned(end, t)
    decreases |steps|
  {
    if steps != [] {
      StepKeepsSecure(s, steps[0], t, Next(s, steps[0]));
      SecureStays(Next(s, steps[0]), steps[1..], end, t);
    }
  }

  /** After the cancel, a live request that is not about to wait in the table is secure, and so is a new one. */
  lemma OthersAreSecure(s: State, t: nat, u: nat, s': State)
    requires Inv(s) && s.done && Enabled(s, Register(t)) && s' == Next(s, Register(t))
    requires u in s.requests && u != t && Live(s.requests[u].pc)
    requires s.requests[u].token == InTable ==> s.requests[u].pc != Sending && s.requests[u].pc != Waiting
    ensures Secure(s', t) && Secure(s', u)
  {
    var r := s.requests[u];
    assert RequestOk(r, s.done, Collected(s));
    if r.pc == Sending || r.pc == Waiting {
      assert r.token.WithResponder? || r.token == WithDisconnect || r.token == Used;
      assert Provided(s, u);
    }
    assert s'.requests[u] == r && s'.flights == s.flights && s'.disc == s.disc;
  }

  /**
    Registering under an ID that another live request uses can leave one of the
    two without any reply exactly when the connection is not yet cancelled, or
    the other is in the table and past its check of the connection.
   */
  lemma SharedIdStrandsIff(states: seq<State>, steps: seq<Step>, i: nat, t: nat, u: nat)
    requires Run(states, steps) && i < |states| && Enabled(states[i], Register(t))
    requires u in states[i].requests && u != t && Live(states[i].requests[u].pc)
    requires states[i].requests[u].id == states[i].requests[t].id
    ensures var s, r := states[i], states[i].requests[u];
            CanStrand(Next(s, Register(t)), t, u) <==> !s.done || (r.token == InTable && (r.pc == Sending || r.pc == Waiting))
  {
    InvAlways(states, steps, i);
    var s, r := states[i], states[i].requests[u];
    var s' := Next(s, Register(t));
    if r.token == InTable && (r.pc == Sending || r.pc == Waiting) {
      var cont, end := StrandOlder(s, t, u);
      assert Leads(Taken, s', cont, end) && Orphaned(end, u);
    } else if !s.done {
      var cont, end := StrandNewer(s, t, u);
      assert Leads(Taken, s', cont, end) && Orphaned(end, t);
    } else {
      OthersAreSecure(s, t, u, s');
      forall cont, end | Leads(Taken, s', cont, end) ensures !Orphaned(end, t) && !Orphaned(end, u) {
        SecureStays(s', cont, end, t);
        SecureStays(s', cont, end, u);
      }
    }
  }

  lemma Extend(states: seq<State>, steps: seq<Step>, s: State, step: Step, s': State)
    returns (states': seq<State>, steps': seq<Step>)
    requires Run(states, steps) && s == states[|steps|] && Takeable(s, step) && s' == Next(s, step) && DistinctIds(s')
    ensures Run(states', steps') && s' == states'[|steps'|]
  {
    states', steps' := states + [s'], steps + [step];
    forall i | 0 <= i < |steps'| ensures StepAt(states', steps', i) {
      if i < |steps| { assert StepAt(states, steps, i); }
    }
    forall i | 0 <= i < |states'| ensures DistinctIds(states'[i]) {
      if i < |states| { assert DistinctIds(states[i]); }
    }
  }

  /** Two requests with one ID, the second of which has only found its client. */
  function Two(pc: Pc, token: Token, table: map<string, nat>): State {
    State(Connected, false, table,
          map[0 := Request("r", pc, [], 0, token, false), 1 := Request("r", Found, [], 0, Unissued, false)], map[])
  }

  lemma TwoIsDistinct(pc: Pc, token: Token, table: map<string, nat>)
    ensures DistinctIds(Two(pc, token, table))
  {
  }

  lemma TwoMoves(states: seq<State>, steps: seq<Step>, s: State, step: Step, pc: Pc, token: Token, table: map<string, nat>)
    returns (states': seq<State>, steps': seq<Step>, s': State)
    requires Run(states, steps) && s == states[|steps|] && Takeable(s, step) && Next(s, step) == Two(pc, token, table)
    ensures Run(states', steps') && s' == states'[|steps'|] == Two(pc, token, table)
  {
    s' := Two(pc, token, table);
    TwoIsDistinct(pc, token, table);
    states', steps' := Extend(states, steps, s, step, s');
  }

  lemma TwoBegin() returns (states: seq<State>, steps: seq<Step>, s: State)
    ensures Run(states, steps) && s == states[|steps|] == Two(Found, Unissued, map[])
  {
    var one := INIT.(requests := map[0 := Request("r", Found, [], 0, Unissued, false)]);
    assert Run([INIT], []);
    states, steps := Extend([INIT], [], INIT, Begin(0, "r"), one);
    states, steps, s := TwoMoves(states, steps, one, Begin(1, "r"), Found, Unissued, map[]);
  }

  /** Two requests with one ID: the first is waiting when the second registers, and waits for good. */
  lemma SharedIdWitness() returns (states: seq<State>, steps: seq<Step>, s: State)
    ensures Run(states, steps) && s == states[|steps|]
    ensures Enabled(s, Register(1)) && Orphaned(Next(s, Register(1)), 0)
  {
    states, steps, s := TwoBegin();
    states, steps, s := TwoMoves(states, steps, s, Register(0), Registered, InTable, map["r" := 0]);
    states, steps, s := TwoMoves(states, steps, s, CheckDone(0), Sending, InTable, map["r" := 0]);
    states, steps, s := TwoMoves(states, steps, s, Enqueue(0), Waiting, InTable, map["r" := 0]);
  }

  // ---- The objects ----

  /** A reply channel with room for one message. */
  class Channel {
    var buf: seq<Response>

    constructor ()
      ensures buf == []
    {
      buf := [];
    }

    /** A send that gives up when the channel is full. */
    method TrySend(reply: Response)
      modifies this
      ensures buf == if old(buf) == [] then [reply] else old(buf)
    {
      if |buf| < 1 {
        buf := buf + [reply];
      }
    }
  }

  const SEND_BUFFER := 256

  class Client {
    var capReqs: map<string, Channel>
    var done: bool
    var send: seq<string>

    /** No channel serves two requests, and a pending request's channel is empty. */
    ghost predicate Valid() reads this, capReqs.Values {
      && (forall id :: id in capReqs ==> capReqs[id].buf == [])
      && (forall id, id' :: id in capReqs && id' in capReqs && id != id' ==> capReqs[id] != capReqs[id'])
    }

    constructor ()
      ensures Valid() && capReqs == map[] && !done && send == []
    {
      capReqs, done, send := map[], false, [];
    }

    method Register(requestId: string) returns (channel: Channel)
      requires Valid()
      modifies this`capReqs
      ensures Valid() && fresh(channel) && channel.buf == []
      ensures capReqs == old(capReqs)[requestId := channel]
    {
      channel := new Channel();
      capReqs := capReqs[requestId := channel];
    }

    method Unregister(requestId: string)
      requires Valid()
      modifies this`capReqs
      ensures Valid() && capReqs == old(capReqs) - {requestId}
    {
      capReqs := capReqs - {requestId};
    }

    /** Refused once the connection is done; otherwise queued if there is room in time. */
    method Enqueue(frame: string, roomInTime: bool) returns (ok: bool)
      modifies this`send
      ensures ok == (!done && (|old(send)| < SEND_BUFFER || roomInTime))
      ensures send == if ok then old(send) + [frame] else old(send)
    {
      if done {
        return false;
      }
      if |send| < SEND_BUFFER || roomInTime {
        send := send + [frame];
        return true;
      }
      return false;
    }

    method HandleCapabilityResponse(reply: Response)
      requires Valid()
      modifies this`capReqs, capReqs.Values
      ensures Valid() && capReqs == if reply.requestId == "" then old(capReqs) else old(capReqs) - {reply.requestId}
      ensures reply.requestId in old(capReqs) ==> old(capReqs)[reply.requestId].buf == if reply.requestId == "" then [] else [reply]
      ensures forall id :: id in old(capReqs) && id != reply.requestId ==> old(capReqs)[id].buf == []
    {
      if reply.requestId == "" { return; }
      if reply.requestId in capReqs {
        var channel := capReqs[reply.requestId];
        capReqs := capReqs - {reply.requestId};
        channel.buf := channel.buf + [reply];
      }
    }

    /** Empties the table into a list, one entry per pending request. */
    method TakePending() returns (pending: seq<(string, Channel)>)
      modifies this`capReqs
      ensures capReqs == map[]
      ensures forall p :: p in pending ==> p.0 in old(capReqs) && p.1 == old(capReqs)[p.0]
      ensures forall id :: id in old(capReqs) ==> (id, old(capReqs)[id]) in pending
      ensures forall i, j :: 0 <= i < j < |pending| ==> pending[i].0 != pending[j].0
    {
      ghost var table := capReqs;
      pending := [];
      while capReqs.Keys != {}
        invariant forall id :: id in capReqs ==> id in table && capReqs[id] == table[id]
        invariant forall p :: p in pending ==> p.0 in table && p.0 !in capReqs && p.1 == table[p.0]
        invariant forall id :: id in table && id !in capReqs ==> (id, table[id]) in pending
        invariant forall i, j :: 0 <= i < j < |pending| ==> pending[i].0 != pending[j].0
        decreases capReqs.Keys
      {
        var id :| id in capReqs.Keys;
        assert forall p :: p in pending ==> p.0 != id;
        pending := pending + [(id, capReqs[id])];
        capReqs := capReqs - {id};
      }
    }

    /** Takes every pending request out of the table, then fails each one. */
    method FailPendingCapabilityRequests()
      requires Valid()
      modifies this`capReqs, capReqs.Values
      ensures capReqs == map[]
      ensures forall id :: id in old(capReqs) ==> old(capReqs)[id].buf == [Disconnected(id)]
    {
      var pending := TakePending();
      for n := 0 to |pending|
        invariant capReqs == map[]
        invariant forall i :: 0 <= i < n ==> pending[i].1.buf == [Disconnected(pending[i].0)]
        invariant forall i :: n <= i < |pending| ==> pending[i].1.buf == []
      {
        pending[n].1.TrySend(Disconnected(pending[n].0));
      }
    }
  }

  class Server {
    var wsClients: map<string, Client>

    constructor ()
      ensures wsClients == map[]
    {
      wsClients := map[];
    }

    /** The first caller for an ID cancels the client before failing what is pending; later callers do nothing. */
    method RemoveWSClient(id: string)
      requires id in wsClients ==> wsClients[id].Valid()
      modifies this
      modifies if id in wsClients then {wsClients[id]} else {}
      modifies if id in wsClients then wsClients[id].capReqs.Values else {}
      ensures wsClients == old(wsClients) - {id}
      ensures id in old(wsClients) ==>
                var client := old(wsClients[id]);
                && client.done && client.capReqs == map[]
                && forall r :: r in old(client.capReqs) ==>
                     var buf := old(client.capReqs)[r].buf;
                     |buf| == 1 && buf[0] == Disconnected(r) && buf[0].requestId == r && !buf[0].success
    {
      if id in wsClients {
        var client := wsClients[id];
        wsClients := wsClients - {id};
        client.done := true;
        client.FailPendingCapabilityRequests();
      }
    }
  }
}
