/**
 One server channel as a state machine: `BaseChannel` with its tracked requests, the handlers that
 `Requests` hands out, and the two queues through which handlers report back. Requests are told
 apart by the number of their handler, so ids may be reused.
 */
module ServerProtocol {
  import opened Types
  import opened Flights

  /** Handlers are numbered in the order in which their requests were accepted. */
  type Handle = nat

  datatype Phase =
    | Fresh                                              // yielded by the channel, guard inert
    | Armed                                              // held or executing, guard armed
    | Replied(message: Result<Resp, ServerError>)        // response queued, guard disarmed
    | AbortSeen                                          // stopped by its abort flag, guard disarmed
    | Dropped                                            // dropped unfinished: the guard cancelled
    | Throttled                                          // turned away by the throttler

  datatype Handler = Handler(req: Request, at: nat, phase: Phase)

  datatype Why = CancelArrived(at: nat) | DeadlinePassed | ChannelDropped

  /** A response; history: the handler it came from. */
  datatype Reply = Reply(origin: Handle, resp: Response)

  /** A guard's cancellation; history: the handler whose guard it was. */
  datatype Guard = Guard(origin: Handle, id: Id)

  datatype How = Answered | LostWrite | ByCancel | ByDeadline | ByGuard

  /** History: a request becomes tracked, or stops being tracked. */
  datatype Act = Start(id: Id) | End(id: Id, how: How)

  datatype Server = ServerState(
    received: seq<ClientMessage>,      // everything read from the transport
    flights: Flights<Handle>,          // tracked requests
    handlers: seq<Handler>,            // every request ever accepted
    aborted: map<Handle, Why>,         // abort flags
    respQ: seq<Reply>,                 // pending_responses
    cancelQ: seq<Guard>,               // canceled_requests
    sent: seq<Reply>,                  // everything written to the transport
    acts: seq<Act>,
    alive: bool,
    now: Time
  )

  const THROTTLE_ERROR := ServerError(WouldBlock, "server throttled the request.")

  datatype Event =
    | Take(msg: ClientMessage, key: Key)
    | TakeGuard
    | Expire(key: Key)
    | Arm(h: Handle)
    | Throttle(h: Handle, ok: bool)
    | Respond(h: Handle, message: Result<Resp, ServerError>)
    | SeeAbort(h: Handle)
    | DropHandler(h: Handle)
    | Write(ok: bool)
    | DropChannel
    | Check                                              // the throttler compares what is tracked with its limit
    | Leave                                              // its poll returns without a request
    | Tick(now: Time)

  predicate In(v: Server, h: Handle, phase: Phase) {
    h < |v.handlers| && v.handlers[h].phase == phase
  }

  function To(v: Server, h: Handle, phase: Phase): seq<Handler>
    requires h < |v.handlers|
  {
    v.handlers[h := v.handlers[h].(phase := phase)]
  }

  /** `start_request` on an id that is not tracked. */
  function StartRequest(v: Server, r: Request, key: Key): Server {
    v.(received := v.received + [Call(r)],
       handlers := v.handlers + [Handler(r, |v.received|, Fresh)],
       flights := v.flights.Insert(r.id, |v.handlers|, key, ExpiryOf(v.now, r.deadline)),
       acts := v.acts + [Start(r.id)])
  }

  /** `remove_request`: stop tracking without aborting. */
  function Untrack(v: Server, i: Id, how: How): Server {
    if i in v.flights.slots then v.(flights := v.flights.Remove(i), acts := v.acts + [End(i, how)]) else v
  }

  /** `cancel_request`, or an expiry: stop tracking and abort the handler. */
  function AbortRequest(v: Server, i: Id, how: How, why: Why): Server {
    if i in v.flights.slots then
      Untrack(v, i, how).(aborted := v.aborted[v.flights.slots[i].data := why])
    else v
  }

  /** `start_send`: only the response to a tracked request is written. */
  function SendReply(v: Server, reply: Reply, ok: bool): Server {
    var i := reply.resp.id;
    if i in v.flights.slots then
      if ok then Untrack(v, i, Answered).(sent := v.sent + [reply]) else Untrack(v, i, LostWrite)
    else v
  }

  /** Dropping the in-flight requests aborts every handler that is still tracked. */
  function AbortAll(aborted: map<Handle, Why>, hs: set<Handle>): map<Handle, Why> {
    aborted + map h | h in hs :: ChannelDropped
  }

  function TrackedHandlers(slots: map<Id, Slot<Handle>>): set<Handle> {
    set i | i in slots :: slots[i].data
  }

  function Step(v: Server, e: Event): Option<Server> {
    match e
    case Take(Call(r), key) =>
      if !v.alive then None
      else if r.id in v.flights.slots then Some(v.(received := v.received + [Call(r)]))
      else if key in v.flights.timers then None
      else Some(StartRequest(v, r, key))
    case Take(Cancel(i), _) =>
      if !v.alive then None
      else Some(AbortRequest(v.(received := v.received + [Cancel(i)]), i, ByCancel, CancelArrived(|v.received|)))
    case TakeGuard =>
      if v.alive && v.cancelQ != [] then
        Some(Untrack(v.(cancelQ := v.cancelQ[1..]), v.cancelQ[0].id, ByGuard))
      else None
    case Expire(key) =>
      if v.alive && key in v.flights.timers && v.flights.timers[key].expiry <= v.now then
        Some(AbortRequest(v, v.flights.timers[key].id, ByDeadline, DeadlinePassed).(flights := v.flights.Expire(key)))
      else None
    case Arm(h) =>
      if In(v, h, Fresh) then Some(v.(handlers := To(v, h, Armed))) else None
    case Throttle(h, ok) =>
      if v.alive && In(v, h, Fresh) then
        Some(SendReply(v.(handlers := To(v, h, Throttled)),
              Reply(h, Response(v.handlers[h].req.id, Err(THROTTLE_ERROR))), ok))
      else None
    case Respond(h, message) =>
      // the flag may be set while the handler is being polled, so it need not be looked at here
      if In(v, h, Armed) then
        Some(v.(handlers := To(v, h, Replied(message)),
                respQ := if v.alive then v.respQ + [Reply(h, Response(v.handlers[h].req.id, message))] else v.respQ))
      else None
    case SeeAbort(h) =>
      if In(v, h, Armed) && h in v.aborted then Some(v.(handlers := To(v, h, AbortSeen))) else None
    case DropHandler(h) =>
      if In(v, h, Armed) then
        Some(v.(handlers := To(v, h, Dropped),
                cancelQ := if v.alive then v.cancelQ + [Guard(h, v.handlers[h].req.id)] else v.cancelQ))
      else None
    case Write(ok) =>
      if v.alive && v.respQ != [] then Some(SendReply(v.(respQ := v.respQ[1..]), v.respQ[0], ok)) else None
    case DropChannel =>
      if v.alive then
        Some(v.(alive := false, flights := NoFlights(), respQ := [], cancelQ := [],
                aborted := AbortAll(v.aborted, TrackedHandlers(v.flights.slots))))
      else None
    case Check => if v.alive then Some(v) else None
    case Leave => if v.alive then Some(v) else None
    case Tick(t) =>
      if v.now <= t then Some(v.(now := t)) else None
  }

  ghost function Exec(v: Server, es: seq<Event>): Option<Server>
    decreases |es|
  {
    if es == [] then Some(v)
    else
      var first := Step(v, es[0]);
      if first.None? then None else Exec(first.value, es[1..])
  }

  lemma {:induction false} ExecAppend(v: Server, xs: seq<Event>, ys: seq<Event>)
    requires Exec(v, xs).Some?
    ensures Exec(v, xs + ys) == Exec(Exec(v, xs).value, ys)
    decreases |xs|
  {
    if xs == [] {
      assert xs + ys == ys;
    } else {
      assert (xs + ys)[1..] == xs[1..] + ys;
      ExecAppend(Step(v, xs[0]).value, xs[1..], ys);
    }
  }

  lemma ExecNothing(v: Server)
    ensures Exec(v, []) == Some(v)
  {
  }

  /** Extends a run by one step. */
  lemma ExecSnoc(v: Server, xs: seq<Event>, e: Event)
    requires Exec(v, xs).Some? && Step(Exec(v, xs).value, e).Some?
    ensures Exec(v, xs + [e]) == Step(Exec(v, xs).value, e)
  {
    ExecAppend(v, xs, [e]);
  }

  /** `BaseChannel::new`. */
  function Init(): Server {
    ServerState([], NoFlights(), [], map[], [], [], [], [], true, 0)
  }

  // ------------------------------------------------------------------ history of an id

  /** The last thing that happened to `i` was that it became tracked. */
  predicate LiveIn(acts: seq<Act>, i: Id) {
    if acts == [] then false
    else if acts[|acts| - 1].id == i then acts[|acts| - 1].Start?
    else LiveIn(acts[..|acts| - 1], i)
  }

  /** An id starts only while untracked and ends only while tracked. */
  predicate Alternates(acts: seq<Act>) {
    if acts == [] then true
    else
      var before, last := acts[..|acts| - 1], acts[|acts| - 1];
      Alternates(before) && (last.Start? <==> !LiveIn(before, last.id))
  }

  function CountActs(acts: seq<Act>, a: Act): nat {
    if acts == [] then 0
    else CountActs(acts[..|acts| - 1], a) + (if acts[|acts| - 1] == a then 1 else 0)
  }

  function CountCalls(received: seq<ClientMessage>, i: Id): nat {
    if received == [] then 0
    else
      var last := received[|received| - 1];
      CountCalls(received[..|received| - 1], i) + (if last.Call? && last.request.id == i then 1 else 0)
  }

  function CountReplies(sent: seq<Reply>, i: Id): nat {
    if sent == [] then 0
    else CountReplies(sent[..|sent| - 1], i) + (if sent[|sent| - 1].resp.id == i then 1 else 0)
  }

  // ------------------------------------------------------------------ invariants

  /** Handler `h` is the last one started for its id. */
  predicate Latest(handlers: seq<Handler>, h: Handle)
    requires h < |handlers|
  {
    forall k :: h < k < |handlers| ==> handlers[k].req.id != handlers[h].req.id
  }

  /** A tracked request's handler was not aborted, and is the last one started for the id. */
  ghost predicate TrackedOk(slots: map<Id, Slot<Handle>>, handlers: seq<Handler>, aborted: map<Handle, Why>) {
    forall i :: i in slots ==>
      && slots[i].data < |handlers| && handlers[slots[i].data].req.id == i && slots[i].data !in aborted
      && Latest(handlers, slots[i].data)
  }

  /** Who will clean up after handler `h` of tracked request `i`. */
  ghost predicate Cared(i: Id, h: Handle, phase: Phase, respQ: seq<Reply>, cancelQ: seq<Guard>) {
    match phase
    case Fresh => true
    case Armed => true
    case Replied(_) => exists q :: 0 <= q < |respQ| && respQ[q].origin == h && respQ[q].resp.id == i
    case Dropped => Guard(h, i) in cancelQ
    case AbortSeen => false
    case Throttled => false
  }

  ghost predicate NoLeakOk(slots: map<Id, Slot<Handle>>, handlers: seq<Handler>, respQ: seq<Reply>,
                           cancelQ: seq<Guard>) {
    forall i :: i in slots && slots[i].data < |handlers| ==>
      Cared(i, slots[i].data, handlers[slots[i].data].phase, respQ, cancelQ)
  }

  /** A response carries its handler's id and result, or the throttler's error. */
  predicate FromHandler(handlers: seq<Handler>, reply: Reply) {
    && reply.origin < |handlers|
    && reply.resp.id == handlers[reply.origin].req.id
    && (handlers[reply.origin].phase == Replied(reply.resp.message)
        || (handlers[reply.origin].phase.Throttled? && reply.resp.message == Err(THROTTLE_ERROR)))
  }

  ghost predicate RepliesOk(replies: seq<Reply>, handlers: seq<Handler>) {
    forall q :: 0 <= q < |replies| ==> FromHandler(handlers, replies[q])
  }

  /** Each handler was started by its own message. */
  ghost predicate HandlersOk(handlers: seq<Handler>, received: seq<ClientMessage>) {
    && (forall h :: 0 <= h < |handlers| ==>
          handlers[h].at < |received| && received[handlers[h].at] == Call(handlers[h].req))
    && (forall h, k :: 0 <= h < k < |handlers| ==> handlers[h].at < handlers[k].at)
  }

  /** The history of every id fits what is tracked now. */
  ghost predicate HistoryOk(slots: map<Id, Slot<Handle>>, acts: seq<Act>, alive: bool) {
    Alternates(acts) && (alive ==> forall i :: i in slots <==> LiveIn(acts, i))
  }

  /** Request `i` started at most as often as it was received, and was answered as the log says. */
  predicate CountOk(i: Id, acts: seq<Act>, received: seq<ClientMessage>, sent: seq<Reply>) {
    && CountActs(acts, Start(i)) <= CountCalls(received, i)
    && CountReplies(sent, i) == CountActs(acts, End(i, Answered))
  }

  ghost predicate CountsOk(acts: seq<Act>, received: seq<ClientMessage>, sent: seq<Reply>) {
    forall i :: CountOk(i, acts, received, sent)
  }

  /** A handler is aborted for a reason. */
  ghost predicate AbortsOk(aborted: map<Handle, Why>, handlers: seq<Handler>, received: seq<ClientMessage>, now: Time,
                           alive: bool) {
    forall h :: h in aborted ==>
      && h < |handlers|
      && match aborted[h]
         case CancelArrived(p) => handlers[h].at < p < |received| && received[p] == Cancel(handlers[h].req.id)
         case DeadlinePassed => handlers[h].req.deadline <= now
         case ChannelDropped => !alive
  }

  /** Each timer is set for its request's deadline, or was due as soon as it was set. */
  ghost predicate TimersOk(flights: Flights<Handle>, handlers: seq<Handler>, now: Time) {
    forall i :: i in flights.slots && flights.slots[i].key in flights.timers && flights.slots[i].data < |handlers| ==>
      Timely(handlers[flights.slots[i].data].req.deadline, flights.timers[flights.slots[i].key].expiry, now)
  }

  ghost predicate Base(v: Server) {
    && v.flights.Agree()
    && TrackedOk(v.flights.slots, v.handlers, v.aborted)
    && RepliesOk(v.respQ, v.handlers)
    && RepliesOk(v.sent, v.handlers)
    && HandlersOk(v.handlers, v.received)
    && AbortsOk(v.aborted, v.handlers, v.received, v.now, v.alive)
    && TimersOk(v.flights, v.handlers, v.now)
    && (!v.alive ==> v.flights == NoFlights() && v.respQ == [] && v.cancelQ == [])
  }

  ghost predicate History(v: Server) {
    HistoryOk(v.flights.slots, v.acts, v.alive) && CountsOk(v.acts, v.received, v.sent)
  }

  /** A queued cancellation comes from the guard of a dropped handler. */
  ghost predicate GuardsOk(cancelQ: seq<Guard>, handlers: seq<Handler>) {
    forall q :: 0 <= q < |cancelQ| ==>
      && cancelQ[q].origin < |handlers| && handlers[cancelQ[q].origin].phase.Dropped?
      && handlers[cancelQ[q].origin].req.id == cancelQ[q].id
  }

  ghost predicate Started(handlers: seq<Handler>, i: Id) {
    exists h :: 0 <= h < |handlers| && handlers[h].req.id == i
  }

  /** Every request received was accepted, or repeats the id of one that was. */
  ghost predicate CalledOk(received: seq<ClientMessage>, handlers: seq<Handler>) {
    forall p :: 0 <= p < |received| && received[p].Call? ==> Started(handlers, received[p].request.id)
  }

  ghost predicate Origins(v: Server) {
    GuardsOk(v.cancelQ, v.handlers) && CalledOk(v.received, v.handlers)
  }

  /** No cancel for a tracked request was read since it started. */
  ghost predicate UncancelledAt(slots: map<Id, Slot<Handle>>, handlers: seq<Handler>, received: seq<ClientMessage>,
                                i: Id) {
    i in slots && slots[i].data < |handlers| ==>
      forall p :: handlers[slots[i].data].at < p < |received| ==> received[p] != Cancel(i)
  }

  ghost predicate Uncancelled(v: Server) {
    forall i :: UncancelledAt(v.flights.slots, v.handlers, v.received, i)
  }

  /** No other request with the id of `h` was ever accepted. */
  ghost predicate OnlyOne(handlers: seq<Handler>, h: Handle)
    requires h < |handlers|
  {
    forall k :: 0 <= k < |handlers| && handlers[k].req.id == handlers[h].req.id ==> k == h
  }

  /** A handler at work is tracked or was told to stop, unless another request came under its id. */
  ghost predicate HeededAt(slots: map<Id, Slot<Handle>>, handlers: seq<Handler>, aborted: map<Handle, Why>, h: Handle) {
    h < |handlers| && (handlers[h].phase.Fresh? || handlers[h].phase.Armed?) && OnlyOne(handlers, h) ==>
      h in aborted || (handlers[h].req.id in slots && slots[handlers[h].req.id].data == h)
  }

  /** What an end means for a handler of the request: it was told to stop, it was dropped, or it was done. */
  predicate EndedBy(phase: Phase, why: Option<Why>, how: How) {
    match how
    case ByCancel => why.Some? && why.value.CancelArrived?
    case ByDeadline => why.Some? && why.value.DeadlinePassed?
    case ByGuard => phase.Dropped?
    case Answered => phase.Replied? || phase.Throttled?
    case LostWrite => phase.Replied? || phase.Throttled?
  }

  function WhyOf(aborted: map<Handle, Why>, h: Handle): Option<Why> {
    if h in aborted then Some(aborted[h]) else None
  }

  /** An end is true of some handler of `i`. */
  ghost predicate Ended(handlers: seq<Handler>, aborted: map<Handle, Why>, i: Id, how: How) {
    exists h :: 0 <= h < |handlers| && handlers[h].req.id == i && EndedBy(handlers[h].phase, WhyOf(aborted, h), how)
  }

  ghost predicate EndTrue(acts: seq<Act>, handlers: seq<Handler>, aborted: map<Handle, Why>, p: nat) {
    p < |acts| && acts[p].End? ==> Ended(handlers, aborted, acts[p].id, acts[p].how)
  }

  ghost predicate Heeded(v: Server) {
    && (forall h :: HeededAt(v.flights.slots, v.handlers, v.aborted, h))
    && (forall p :: EndTrue(v.acts, v.handlers, v.aborted, p))
  }

  ghost predicate Cares(v: Server) {
    NoLeakOk(v.flights.slots, v.handlers, v.respQ, v.cancelQ)
  }

  ghost predicate Inv(v: Server) {
    Base(v) && History(v) && Cares(v) && Origins(v) && Uncancelled(v) && Heeded(v)
  }
}
