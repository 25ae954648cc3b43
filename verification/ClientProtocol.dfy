/**
 The whole client: many callers running `Channel::call`, one dispatcher. One move per atomic step;
 a run interleaves the moves of all of them in any order.
 */
module ClientProtocol {
  import opened Types
  import opened Flights
  import opened DispatchProtocol

  /** How far a call has got. */
  datatype Phase =
    | Sending                    // id drawn, guard created, waiting for room in the queue
    | Reserved                   // holds a permit to send
    | Waiting                    // request handed over, awaiting the response
    | Refused                    // the queue was closed; the guard is about to drop
    | Closing(refused: bool)     // guard dropping: receiver closed, cancel not yet sent
    | CancelSent                 // future dropped; guard closed and cancelled
    | Failed                     // returned Err(Shutdown) without being accepted
    | Resolved(outcome: Outcome)
    | Leaked                     // future forgotten without running its drop
  {
    /** The call still borrows the Channel. */
    predicate Active() {
      Sending? || Reserved? || Waiting? || Refused? || Closing?
    }

    /** The queue turned the request away. */
    predicate TurnedAway() {
      Refused? || (Closing? && refused) || Failed?
    }
  }

  datatype Caller = Caller(req: Request, phase: Phase)

  datatype Client = Client(
    calls: map<Id, Caller>,
    next: nat,                   // next_request_id
    buffer: nat,                 // pending_request_buffer
    d: State
  )

  /** Ids are drawn from a 64-bit counter: the model covers channels with fewer calls than that. */
  const ID_LIMIT: nat := 0x1_0000_0000_0000_0000

  datatype Move =
    | StartCall(body: Req, deadline: Time)
    | Reserve(id: Id)
    | Enqueue(id: Id)
    | Refuse(id: Id)
    | CloseGuard(id: Id)
    | CancelGuard(id: Id)
    | Resolve(id: Id)
    | Leak(id: Id)
    | DropChannel
    | Tick(now: Time)
    | Dispatch(event: Event)

  predicate In(c: Client, i: Id, phase: Phase) {
    i in c.calls && c.calls[i].phase == phase
  }

  function To(c: Client, i: Id, phase: Phase, d: State): Client {
    if i in c.calls then c.(calls := c.calls[i := c.calls[i].(phase := phase)], d := d) else c.(d := d)
  }

  function Close(d: State, i: Id): State {
    d.(closed := d.closed + {i})
  }

  /** A permit is used. Once the dispatcher is gone the request, and its sender, go nowhere. */
  function Push(d: State, i: Id, r: Request): State {
    var d' := d.(reserved := d.reserved - {i}, accepted := d.accepted[i := r]);
    if d.life.Gone? then d'.(txs := d.txs[i := Dropped], sites := d.sites[i := Done(Discarded)])
    else d'.(pending := d.pending + [r], txs := d.txs[i := Held], sites := d.sites[i := Queued])
  }

  function PushCancel(d: State, i: Id): State {
    if d.life.Gone? then d else d.(cancelQ := d.cancelQ + [i])
  }

  ghost function Next(c: Client, m: Move): Option<Client> {
    match m
    case StartCall(body, deadline) =>
      if c.d.open && c.next < ID_LIMIT then
        Some(c.(calls := c.calls[c.next := Caller(Request(c.next, deadline, body), Sending)], next := c.next + 1))
      else None
    case Reserve(i) =>
      if In(c, i, Sending) && !c.d.rxClosed && |c.d.pending| + |c.d.reserved| < c.buffer then
        Some(To(c, i, Reserved, c.d.(reserved := c.d.reserved + {i})))
      else None
    case Enqueue(i) =>
      if In(c, i, Reserved) then Some(To(c, i, Waiting, Push(c.d, i, c.calls[i].req))) else None
    case Refuse(i) =>
      if In(c, i, Sending) && c.d.rxClosed then Some(To(c, i, Refused, c.d)) else None
    case CloseGuard(i) =>
      if In(c, i, Sending) || In(c, i, Waiting) || In(c, i, Refused) then
        Some(To(c, i, Closing(c.calls[i].phase.Refused?), Close(c.d, i)))
      else None
    case CancelGuard(i) =>
      if i in c.calls && c.calls[i].phase.Closing? then
        Some(To(c, i, if c.calls[i].phase.refused then Failed else CancelSent, PushCancel(c.d, i)))
      else None
    case Resolve(i) =>
      // a received value, or a sender dropped without one; the disarmed guard only closes
      if In(c, i, Waiting) && i in c.d.txs && !c.d.txs[i].Held? then
        Some(To(c, i, Resolved(if c.d.txs[i].Sent? then c.d.txs[i].value else Err(Shutdown)), Close(c.d, i)))
      else None
    case Leak(i) =>
      if In(c, i, Sending) || In(c, i, Waiting) then Some(To(c, i, Leaked, c.d)) else None
    case DropChannel =>
      // the last handle goes away: no call can still borrow it
      if c.d.open && (forall i :: i in c.calls ==> !c.calls[i].phase.Active()) then
        Some(c.(d := c.d.(open := false)))
      else None
    case Tick(t) =>
      if c.d.now <= t then Some(c.(d := c.d.(now := t))) else None
    case Dispatch(e) =>
      var r := Step(c.d, e);
      if r.Some? then Some(c.(d := r.value)) else None
  }

  ghost function Run(c: Client, ms: seq<Move>): Option<Client>
    decreases |ms|
  {
    if ms == [] then Some(c)
    else
      var first := Next(c, ms[0]);
      if first.None? then None else Run(first.value, ms[1..])
  }

  /** `client::new`. */
  function Init(max: nat, buffer: nat): Client {
    Client(map[], 0, buffer,
           State([], false, {}, true, [], {}, map[], map[], map[], NoFlights(), Idle, Polling, None,
                 Log([], map[], map[]), [], 0, max))
  }

  // ------------------------------------------------------------------ invariants

  /** What each phase says about the receiver, and whether the dispatcher took the request. */
  ghost predicate PhaseOk(phase: Phase, accepted: bool, closed: bool) {
    match phase
    case Sending => !accepted && !closed
    case Reserved => !accepted && !closed
    case Waiting => accepted && !closed
    case Refused => !accepted && !closed
    case Closing(refused) => closed && (refused ==> !accepted)
    case CancelSent => closed
    case Failed => !accepted && closed
    case Resolved(_) => accepted && closed
    case Leaked => !closed
  }

  ghost predicate CallsOk(calls: map<Id, Caller>, next: nat, closed: set<Id>, accepted: map<Id, Request>) {
    && (forall i :: i in calls ==>
          i < next && calls[i].req.id == i && PhaseOk(calls[i].phase, i in accepted, i in closed))
    && (forall i :: i in accepted ==> i in calls && accepted[i] == calls[i].req)
    && (forall i :: i in closed ==> i in calls)
  }

  /** A resolved call got the value its sender was given, or Shutdown after the dispatcher was gone. */
  ghost predicate OutcomesOk(calls: map<Id, Caller>, txs: Txs, gone: bool) {
    forall i :: i in calls && calls[i].phase.Resolved? ==>
      && i in txs
      && (txs[i] == Sent(calls[i].phase.outcome)
            || (txs[i].Dropped? && calls[i].phase.outcome == Err(Shutdown) && gone))
  }

  /** A cancellation in the queue, or acted upon, comes from a guard that has dropped. */
  ghost predicate CancelledOk(calls: map<Id, Caller>, cancelQ: seq<Id>, sites: Sites) {
    && (forall i :: i in cancelQ ==> i in calls && (calls[i].phase.CancelSent? || calls[i].phase.Failed?))
    && (forall i :: i in sites && sites[i] == Done(Cancelled) ==> i in calls && calls[i].phase.CancelSent?)
  }

  ghost predicate PermitsOk(calls: map<Id, Caller>, reserved: set<Id>, open: bool, rxClosed: bool) {
    && (forall i :: i in calls && calls[i].phase.TurnedAway() ==> rxClosed)
    && (forall i :: i in calls && calls[i].phase.Reserved? ==> i in reserved)
    && (forall i :: i in reserved ==> i in calls && calls[i].phase.Reserved?)
    && (!open ==> forall i :: i in calls ==> !calls[i].phase.Active())
  }

  /** Past the closed-check, a request is in flight or on its way there. */
  ghost predicate Committed(i: Id, fly: set<Id>, pc: Pc) {
    i in fly || (pc.Passed? && pc.r.id == i)
  }

  /** The cancellation race: a closed call that is in flight will still be cancelled. */
  ghost predicate RaceOk(calls: map<Id, Caller>, closed: set<Id>, cancelQ: seq<Id>, fly: set<Id>, pc: Pc) {
    forall i :: i in closed && i in calls && Committed(i, fly, pc) ==> calls[i].phase == Closing(false) || i in cancelQ
  }

  ghost predicate CallersInv(c: Client) {
    && CallsOk(c.calls, c.next, c.d.closed, c.d.accepted)
    && OutcomesOk(c.calls, c.d.txs, c.d.life.Gone?)
    && CancelledOk(c.calls, c.d.cancelQ, c.d.sites)
    && PermitsOk(c.calls, c.d.reserved, c.d.open, c.d.rxClosed)
    && RaceOk(c.calls, c.d.closed, c.d.cancelQ, c.d.flights.slots.Keys, c.d.pc)
  }

  ghost predicate Coherent(c: Client) {
    Inv(c.d) && CallersInv(c)
  }

  // ------------------------------------------------------------------ fates

  /** What the dispatcher has done and seen so far. */
  datatype Facts = Facts(
    received: seq<Response>,
    log: Log,
    accepted: map<Id, Request>,
    closed: set<Id>,
    terminal: Option<ChannelError>,
    pc: Pc,
    gone: bool,
    now: Time
  )

  function FactsOf(d: State): Facts {
    Facts(d.received, d.log, d.accepted, d.closed, d.terminal, d.pc, d.life.Gone?, d.now)
  }

  /** The cancel of `i` was written, is about to be, or a write failed. */
  ghost predicate Followed(f: Facts, i: Id) {
    i in f.log.cancelAt || f.pc == Cancelling(i) || (f.terminal.Some? && f.terminal.value.WriteError?)
  }

  /** A request's fate says what happened to it. */
  ghost predicate Truthful(f: Facts, i: Id, fate: Fate) {
    match fate
    case Completed(Ok(x)) => Response(i, Ok(x)) in f.received
    case Completed(Err(Server(e))) => Response(i, Err(e)) in f.received
    case Completed(Err(DeadlineExceeded)) => i in f.accepted && f.accepted[i].deadline <= f.now
    case Completed(Err(Send(_))) => i !in f.log.wroteAt
    case Completed(Err(Channel(e))) => f.terminal == Some(e)
    case Completed(Err(Shutdown)) => false
    case Cancelled => i in f.log.wroteAt && Followed(f, i)
    case Aborted => i in f.closed && i !in f.log.wroteAt
    case Discarded => f.gone
  }

  /** A request in flight has a timer that is set for its deadline, or was due as soon as it was set. */
  ghost predicate TimerOk(flights: Flights<Time>, accepted: map<Id, Request>, now: Time, i: Id) {
    i in flights.slots ==>
      && i in accepted && flights.slots[i].data == accepted[i].deadline && flights.slots[i].key in flights.timers
      && Timely(accepted[i].deadline, flights.timers[flights.slots[i].key].expiry, now)
  }

  ghost predicate FateOk(d: State, i: Id) {
    && TimerOk(d.flights, d.accepted, d.now, i)
    && (i in d.sites && d.sites[i].Done? ==> Truthful(FactsOf(d), i, d.sites[i].fate))
  }

  ghost predicate ClientInv(c: Client) {
    Coherent(c) && forall i :: FateOk(c.d, i)
  }
}
