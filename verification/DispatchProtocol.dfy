/**
 The client's dispatcher as a state machine: one event per atomic step of `RequestDispatch`,
 together with the state it shares with the callers (the queues and the oneshot channels).
 */
module DispatchProtocol {
  import opened Types
  import opened Flights

  // ------------------------------------------------------------------ oneshot channels

  /** The sending half of an accepted request's oneshot channel. */
  datatype Tx = Held | Sent(value: Outcome) | Dropped

  type Txs = map<Id, Tx>

  /** `Sender::send`: consumes the sender; a closed receiver never gets the value. */
  function Deliver(txs: Txs, closed: set<Id>, i: Id, v: Outcome): Txs {
    if i in txs && txs[i].Held? then txs[i := if i in closed then Dropped else Sent(v)] else txs
  }

  function Discard(txs: Txs, i: Id): Txs {
    if i in txs && txs[i].Held? then txs[i := Dropped] else txs
  }

  // ------------------------------------------------------------------ state

  /** Where the dispatcher is between two atomic steps of one poll. */
  datatype Pc =
    | Idle
    | Received(r: Request)   // taken from the queue, receiver not yet checked
    | Passed(r: Request)     // receiver was open at the check
    | Inserted(r: Request)   // in the map, not yet written
    | Cancelling(id: Id)     // removed from the map, Cancel not yet written
  {
    predicate Holds(i: Id) {
      (Received? || Passed?) && r.id == i
    }
  }

  datatype Life = Polling | Finished(result: Result<(), ChannelError>) | Gone

  /** What finally became of a request that the dispatcher accepted. */
  datatype Fate = Completed(value: Outcome) | Cancelled | Aborted | Discarded

  datatype Site = Queued | InHand | Flying | Done(fate: Fate)

  type Sites = map<Id, Site>

  /** Everything written to the transport; history: where each request and each cancel is. */
  datatype Log = Log(sent: seq<ClientMessage>, wroteAt: map<Id, nat>, cancelAt: map<Id, nat>) {
    function WriteCall(r: Request): Log {
      Log(sent + [Call(r)], wroteAt[r.id := |sent|], cancelAt)
    }

    function WriteCancel(i: Id): Log {
      Log(sent + [Cancel(i)], wroteAt, cancelAt[i := |sent|])
    }
  }

  datatype State = State(
    pending: seq<Request>,         // the bounded queue from the callers
    rxClosed: bool,                // its receiver was closed or dropped
    reserved: set<Id>,             // callers holding a permit to send
    open: bool,                    // some Channel handle is alive
    cancelQ: seq<Id>,              // the cancellation queue
    closed: set<Id>,               // calls whose response receiver was closed
    accepted: map<Id, Request>,    // history: every request taken into the pending queue
    txs: Txs,                      // the sender of each accepted request
    sites: Sites,                  // history: where each accepted request is
    flights: Flights<Time>,        // in-flight requests with their deadlines
    pc: Pc,
    life: Life,
    terminal: Option<ChannelError>,
    log: Log,
    received: seq<Response>,       // everything read from the transport
    now: Time,
    max: nat                       // max_in_flight_requests
  )

  // ------------------------------------------------------------------ steps

  datatype Event =
    | Read(resp: Response)
    | Recv
    | Abort
    | Pass
    | Insert(key: Key)
    | SendOk
    | SendFail(cause: Cause)
    | TakeCancel
    | CancelOk
    | CancelFail(cause: Cause)
    | Expire(key: Key)
    | Fault(error: ChannelError)
    | FinishOk
    | ClosePending
    | DrainFlight(id: Id)
    | DrainRecv
    | FinishErr
    | Drop

  /** The poll loop may take its next step. */
  predicate Live(d: State) {
    d.life.Polling? && d.terminal.None? && d.pc.Idle?
  }

  /** `shut_down_with_terminal_error` is under way. */
  predicate Draining(d: State) {
    d.life.Polling? && d.terminal.Some? && d.pc.Idle? && d.rxClosed
  }

  /** `complete_request`: hand `v` to the caller if the request is in flight. */
  function Complete(d: State, i: Id, v: Outcome): State {
    if i in d.flights.slots then
      d.(flights := d.flights.Remove(i), txs := Deliver(d.txs, d.closed, i, v),
         sites := d.sites[i := Done(Completed(v))])
    else d
  }

  /** `cancel_request`: drop the entry and with it the sender. */
  function CancelEntry(d: State, i: Id): State {
    if i in d.flights.slots then
      d.(flights := d.flights.Remove(i), txs := Discard(d.txs, i), sites := d.sites[i := Done(Cancelled)],
         pc := Cancelling(i))
    else d
  }

  /** One round of the drain loop, for request `i`. */
  function DrainHead(d: State, e: ChannelError): State
    requires d.pending != []
  {
    var i := d.pending[0].id;
    if i in d.closed then
      d.(pending := d.pending[1..], txs := Discard(d.txs, i), sites := d.sites[i := Done(Aborted)])
    else
      d.(pending := d.pending[1..], txs := Deliver(d.txs, d.closed, i, Err(Channel(e))),
         sites := d.sites[i := Done(Completed(Err(Channel(e))))])
  }

  ghost predicate InQueue(pending: seq<Request>, i: Id) {
    exists p :: 0 <= p < |pending| && pending[p].id == i
  }

  /** The senders that go down with the dispatcher. */
  ghost predicate Owns(d: State, i: Id) {
    i in d.flights.slots || InQueue(d.pending, i)
  }

  ghost function DropAll(d: State): State {
    d.(pending := [], rxClosed := true, cancelQ := [], flights := NoFlights(), life := Gone,
       txs := map i | i in d.txs :: if Owns(d, i) && d.txs[i].Held? then Dropped else d.txs[i],
       sites := map i | i in d.sites :: if Owns(d, i) then Done(Discarded) else d.sites[i])
  }

  ghost function Step(d: State, e: Event): Option<State> {
    match e
    case Read(resp) =>
      if Live(d) then Some(Complete(d.(received := d.received + [resp]), resp.id, ToOutcome(resp.message))) else None
    case Recv =>
      if Live(d) && d.pending != [] && |d.flights.slots| < d.max then
        Some(d.(pc := Received(d.pending[0]), pending := d.pending[1..], sites := d.sites[d.pending[0].id := InHand]))
      else None
    case Abort =>
      if d.pc.Received? && d.pc.r.id in d.closed then
        Some(d.(pc := Idle, txs := Discard(d.txs, d.pc.r.id), sites := d.sites[d.pc.r.id := Done(Aborted)]))
      else None
    case Pass =>
      if d.pc.Received? && d.pc.r.id !in d.closed then Some(d.(pc := Passed(d.pc.r))) else None
    case Insert(key) =>
      if d.pc.Passed? && key !in d.flights.timers && d.pc.r.id !in d.flights.slots then
        Some(d.(pc := Inserted(d.pc.r), sites := d.sites[d.pc.r.id := Flying],
                flights := d.flights.Insert(d.pc.r.id, d.pc.r.deadline, key, ExpiryOf(d.now, d.pc.r.deadline))))
      else None
    case SendOk =>
      if d.pc.Inserted? then Some(d.(pc := Idle, log := d.log.WriteCall(d.pc.r))) else None
    case SendFail(cause) =>
      if d.pc.Inserted? then Some(Complete(d.(pc := Idle), d.pc.r.id, Err(Send(cause)))) else None
    case TakeCancel =>
      if Live(d) && d.cancelQ != [] then Some(CancelEntry(d.(cancelQ := d.cancelQ[1..]), d.cancelQ[0])) else None
    case CancelOk =>
      if d.pc.Cancelling? then Some(d.(pc := Idle, log := d.log.WriteCancel(d.pc.id))) else None
    case CancelFail(cause) =>
      if d.pc.Cancelling? && d.terminal.None? then Some(d.(pc := Idle, terminal := Some(WriteError(cause)))) else None
    case Expire(key) =>
      if Live(d) && key in d.flights.timers && d.flights.timers[key].expiry <= d.now then
        Some(Complete(d, d.flights.timers[key].id, Err(DeadlineExceeded)).(flights := d.flights.Expire(key)))
      else None
    case Fault(error) =>
      if Live(d) then Some(d.(terminal := Some(error))) else None
    case FinishOk =>
      if Live(d) then Some(d.(life := Finished(Ok(())))) else None
    case ClosePending =>
      if d.life.Polling? && d.terminal.Some? && d.pc.Idle? then Some(d.(rxClosed := true)) else None
    case DrainFlight(i) =>
      if Draining(d) && i in d.flights.slots then Some(Complete(d, i, Err(Channel(d.terminal.value)))) else None
    case DrainRecv =>
      if Draining(d) && d.pending != [] then Some(DrainHead(d, d.terminal.value)) else None
    case FinishErr =>
      if Draining(d) && d.pending == [] && d.flights.slots == map[] && d.reserved == {} then
        Some(d.(life := Finished(Err(d.terminal.value))))
      else None
    case Drop =>
      if d.pc.Idle? && !d.life.Gone? then Some(DropAll(d)) else None
  }

  ghost function Exec(d: State, es: seq<Event>): Option<State>
    decreases |es|
  {
    if es == [] then Some(d)
    else
      var first := Step(d, es[0]);
      if first.None? then None else Exec(first.value, es[1..])
  }

  lemma {:induction false} ExecAppend(d: State, xs: seq<Event>, ys: seq<Event>)
    requires Exec(d, xs).Some?
    ensures Exec(d, xs + ys) == Exec(Exec(d, xs).value, ys)
    decreases |xs|
  {
    if xs == [] {
      assert xs + ys == ys;
    } else {
      assert (xs + ys)[1..] == xs[1..] + ys;
      ExecAppend(Step(d, xs[0]).value, xs[1..], ys);
    }
  }

  lemma ExecNothing(d: State)
    ensures Exec(d, []) == Some(d)
  {
  }

  /** Extends a run by one step. */
  lemma ExecSnoc(d: State, xs: seq<Event>, e: Event)
    requires Exec(d, xs).Some? && Step(Exec(d, xs).value, e).Some?
    ensures Exec(d, xs + [e]) == Step(Exec(d, xs).value, e)
  {
    ExecAppend(d, xs, [e]);
  }

  // ------------------------------------------------------------------ invariants

  // Each invariant names the parts of the state it is about.

  ghost predicate SiteOk(site: Site, i: Id, pending: seq<Request>, fly: set<Id>, pc: Pc) {
    match site
    case Queued => InQueue(pending, i)
    case InHand => pc.Holds(i)
    case Flying => i in fly
    case Done(_) => true
  }

  predicate At(accepted: map<Id, Request>, sites: Sites, r: Request, site: Site) {
    r.id in accepted && accepted[r.id] == r && r.id in sites && sites[r.id] == site
  }

  /** Each accepted request is where its site says, and nothing else is anywhere. */
  ghost predicate PlacesOk(accepted: map<Id, Request>, sites: Sites, pending: seq<Request>, fly: set<Id>, pc: Pc) {
    && (forall i :: i in accepted ==> accepted[i].id == i && i in sites)
    && (forall i :: i in sites ==> i in accepted && SiteOk(sites[i], i, pending, fly, pc))
    && (forall p :: 0 <= p < |pending| ==> At(accepted, sites, pending[p], Queued))
    && (forall p, q :: 0 <= p < q < |pending| ==> pending[p].id != pending[q].id)
    && (forall i :: i in fly ==> i in sites && sites[i] == Flying)
    && (pc.Received? || pc.Passed? ==> At(accepted, sites, pc.r, InHand))
    && (pc.Inserted? ==> At(accepted, sites, pc.r, Flying))
    && (pc.Cancelling? ==> pc.id in sites && sites[pc.id] == Done(Cancelled))
  }

  /** What became of the sender of a request the dispatcher is done with. */
  ghost predicate Settled(tx: Tx, fate: Fate, closed: bool, gone: bool) {
    match fate
    case Completed(v) => tx == Sent(v) || (tx.Dropped? && closed)
    case Cancelled => tx.Dropped? && closed
    case Aborted => tx.Dropped? && closed
    case Discarded => tx.Dropped? && gone
  }

  /** A sender is held exactly until the dispatcher is done with its request. */
  ghost predicate TxsOk(sites: Sites, txs: Txs, closed: set<Id>, gone: bool) {
    && (forall i :: i in sites <==> i in txs)
    && (forall i :: i in sites && i in txs ==> (txs[i].Held? <==> !sites[i].Done?))
    && (forall i :: i in sites && i in txs && sites[i].Done? ==> Settled(txs[i], sites[i].fate, i in closed, gone))
  }

  /** Only closed calls are ever cancelled. */
  ghost predicate CancelsOk(cancelQ: seq<Id>, closed: set<Id>) {
    forall i :: i in cancelQ ==> i in closed
  }

  /** A written request is in the log where the history says; a cancel comes after its request. */
  ghost predicate WrittenOk(i: Id, log: Log, accepted: map<Id, Request>, sites: Sites, pc: Pc) {
    && (i in log.wroteAt ==>
          && i in accepted && log.wroteAt[i] < |log.sent| && log.sent[log.wroteAt[i]] == Call(accepted[i])
          && i in sites && (sites[i].Done? || sites[i].Flying?) && pc != Inserted(accepted[i]))
    && (i in log.cancelAt ==>
          && i in log.wroteAt && log.wroteAt[i] < log.cancelAt[i] < |log.sent| && log.sent[log.cancelAt[i]] == Cancel(i)
          && i in sites && sites[i] == Done(Cancelled) && pc != Cancelling(i))
    && (i in accepted && i in sites && sites[i].Flying? && pc != Inserted(accepted[i]) ==> i in log.wroteAt)
  }

  /** Each request and each cancel is written at most once. */
  ghost predicate WireOk(log: Log, accepted: map<Id, Request>, sites: Sites, pc: Pc) {
    && (forall p :: 0 <= p < |log.sent| && log.sent[p].Call? ==>
          log.sent[p].request.id in log.wroteAt && log.wroteAt[log.sent[p].request.id] == p)
    && (forall p :: 0 <= p < |log.sent| && log.sent[p].Cancel? ==>
          log.sent[p].id in log.cancelAt && log.cancelAt[log.sent[p].id] == p)
    && (forall i :: WrittenOk(i, log, accepted, sites, pc))
    && (pc.Cancelling? ==> pc.id in log.wroteAt)
  }

  /** A server's answer to `i` was received; the dispatcher itself never answers Shutdown. */
  ghost predicate Heard(i: Id, v: Outcome, received: seq<Response>) {
    match v
    case Ok(x) => Response(i, Ok(x)) in received
    case Err(Server(e)) => Response(i, Err(e)) in received
    case Err(Shutdown) => false
    case Err(_) => true
  }

  /** A server's answer reaches only the caller with the response's id. */
  ghost predicate Routed(txs: Txs, received: seq<Response>) {
    forall i :: i in txs && txs[i].Sent? ==> Heard(i, txs[i].value, received)
  }

  ghost predicate LifeOk(d: State) {
    && (!d.pc.Idle? ==> d.life.Polling? && d.terminal.None?)
    && (d.rxClosed ==> d.life.Gone? || d.terminal.Some?)
    && (d.life.Gone? ==> d.rxClosed && d.pending == [] && d.flights == NoFlights() && d.cancelQ == [])
    && (d.life.Finished? && d.life.result.Ok? ==> d.terminal.None?)
    && (d.life.Finished? && d.life.result.Err? ==>
          && d.terminal == Some(d.life.result.error)
          && d.rxClosed && d.pending == [] && d.flights.slots == map[] && d.reserved == {})
    && |d.flights.slots| <= d.max
    && (d.pc.Received? || d.pc.Passed? ==> |d.flights.slots| < d.max)
  }

  ghost predicate Inv(d: State) {
    && d.flights.Agree()
    && PlacesOk(d.accepted, d.sites, d.pending, d.flights.slots.Keys, d.pc)
    && TxsOk(d.sites, d.txs, d.closed, d.life.Gone?)
    && CancelsOk(d.cancelQ, d.closed)
    && WireOk(d.log, d.accepted, d.sites, d.pc)
    && Routed(d.txs, d.received)
    && LifeOk(d)
  }
}
