/** The server end of a connection: `BaseChannel`. */
module ServerChannel {
  import opened Types
  import opened Flights
  import opened ServerProtocol
  import opened ServerInFlight
  import opened Discipline
  import opened Transports

  /** What the channel hands out; its handle stands for the abort registration. */
  datatype TrackedRequest = TrackedRequest(request: Request, handle: Handle)

  /** What polling a stream of requests results in. */
  type StreamPoll = Poll<Option<Result<TrackedRequest, ChannelError>>>

  datatype ReceiverStatus = Active | Waiting | Closed {
    function Combine(other: ReceiverStatus): (r: ReceiverStatus)
      ensures r == Closed <==> this == Closed && other == Closed
      ensures r == Active <==> this == Active || other == Active
    {
      match (this, other)
      case (Active, _) => Active
      case (_, Active) => Active
      case (Closed, Closed) => Closed
      case (_, _) => Waiting
    }
  }

  /** What the transport had for the channel. */
  datatype Inbound =
    | Yield(tracked: TrackedRequest)
    | Broke(error: ChannelError)
    | Duplicate
    | Other(status: ReceiverStatus)

  /** What a transport has to offer for reading has changed, and nothing else. */
  ghost predicate OnlyRead<O, I>(t: Transport<O, I>, t': Transport<O, I>) {
    t' == t.(inbound := t'.inbound, read := t'.read)
  }

  /** The request that waits first, if it does not repeat a tracked id. */
  function NewFirst(inbound: seq<Item<ClientMessage>>, tracked: set<Id>): Option<Request> {
    if inbound != [] && inbound[0].Message? && inbound[0].m.Call? && inbound[0].m.request.id !in tracked
    then Some(inbound[0].m.request) else None
  }

  lemma NewFirstStill(inbound: seq<Item<ClientMessage>>, tracked: set<Id>, tracked': set<Id>)
    requires tracked' <= tracked && NewFirst(inbound, tracked).Some?
    ensures NewFirst(inbound, tracked') == NewFirst(inbound, tracked)
  {
  }

  /** The error of the stream that a poll reports, if any. */
  function BrokenBy(r: StreamPoll): Option<Cause> {
    if r.Ready? && r.value.Some? && r.value.value.Err? then ReadCause(Some(r.value.value.error)) else None
  }

  /** If something is due in `f`, the run starts with an expiry. */
  ghost predicate DueFirst(es: seq<Event>, f: Flights<Handle>, now: Time) {
    NoneExpired(f, now) || (es != [] && es[0].Expire?)
  }

  /** The run starts by hearing the oldest guard, if there is one, and by expiring what is due then, if anything is. */
  ghost predicate CleansFirst(es: seq<Event>, guards: seq<Guard>, f: Flights<Handle>, now: Time) {
    if guards == [] then DueFirst(es, f, now)
    else es != [] && es[0] == TakeGuard && DueFirst(es[1..], f.Remove(guards[0].id), now)
  }

  lemma CleansStill(es: seq<Event>, more: seq<Event>, guards: seq<Guard>, f: Flights<Handle>, now: Time)
    requires CleansFirst(es, guards, f, now)
    ensures CleansFirst(es + more, guards, f, now)
  {
    if guards != [] {
      assert (es + more)[1..] == es[1..] + more;
    }
  }

  /** The request a poll yielded, if any. */
  function YieldedBy(r: StreamPoll): Option<TrackedRequest> {
    if r.Ready? && r.value.Some? && r.value.value.Ok? then Some(r.value.value.value) else None
  }

  class BaseChannel {
    var transport: Transport<Reply, ClientMessage>
    const inFlightRequests: InFlightRequests
    const aborts: AbortFlags
    var canceledRequests: seq<Guard>
    var started: nat
    var now: Time

    // history
    ghost var handlers: seq<Handler>
    ghost var acts: seq<Act>

    ghost function View(respQ: seq<Reply>): Server
      reads this, inFlightRequests, aborts
    {
      ServerState(transport.read, inFlightRequests.View(), handlers, aborts.flags, respQ, canceledRequests,
                  transport.written, acts, true, now)
    }

    ghost predicate Valid()
      reads this, inFlightRequests
    {
      inFlightRequests.Valid() && transport.Valid() && started == |handlers|
    }

    constructor (t: Transport<Reply, ClientMessage>)
      requires t.Valid() && t.read == [] && t.written == []
      ensures Valid() && fresh(inFlightRequests) && fresh(aborts)
      ensures View([]) == Init() && transport == t
    {
      transport := t;
      inFlightRequests := new InFlightRequests();
      aborts := new AbortFlags();
      canceledRequests, started, now := [], 0, 0;
      handlers, acts := [], [];
    }

    function InFlight(): nat
      reads inFlightRequests
    {
      |inFlightRequests.requestData|
    }

    /** What is left to read and to clean up: every turn of the loop makes it smaller. */
    ghost function Work(): nat
      reads this`transport, this`canceledRequests, inFlightRequests
    {
      |transport.inbound| + |canceledRequests| + InFlight()
    }

    // ---------------------------------------------------------------- the stream of requests

    /** Hears the oldest guard. */
    method HearGuard(ghost q: seq<Reply>)
      requires inFlightRequests.Valid() && canceledRequests != []
      modifies this`canceledRequests, this`acts, inFlightRequests
      ensures inFlightRequests.Valid() && canceledRequests == old(canceledRequests)[1..]
      ensures inFlightRequests.View() == old(inFlightRequests.View()).Remove(old(canceledRequests)[0].id)
      ensures InFlight() <= old(InFlight()) && Step(old(View(q)), TakeGuard) == Some(View(q))
      ensures inFlightRequests.requestData.Keys <= old(inFlightRequests.requestData).Keys
    {
      var id := canceledRequests[0].id;
      canceledRequests := canceledRequests[1..];
      var found := inFlightRequests.RemoveRequest(id);
      if found {
        RemoveShrinks(old(inFlightRequests.requestData), id);
        acts := acts + [End(id, ByGuard)];
      }
    }

    /** A guard's cancellation: its request is no longer tracked. */
    method PollCancellation(ghost limit: Option<nat>, ghost duty: Duty, ghost q: seq<Reply>)
      returns (status: ReceiverStatus, ghost trace: seq<Event>)
      requires Valid()
      requires Reading(limit, duty)
      modifies this`canceledRequests, this`acts, inFlightRequests
      ensures Valid() && LeadsUnless(false, limit, old(View(q)), duty, trace, View(q), duty)
      ensures InFlight() <= old(InFlight()) && Work() <= old(Work()) && Suffix(canceledRequests, old(canceledRequests))
      ensures inFlightRequests.requestData.Keys <= old(inFlightRequests.requestData).Keys
      ensures if status.Active? then Work() < old(Work())
              else status.Closed? && canceledRequests == [] && View(q) == old(View(q))
      ensures if old(canceledRequests) == [] then trace == [] && inFlightRequests.View() == old(inFlightRequests.View())
              else && trace == [TakeGuard]
                   && inFlightRequests.View() == old(inFlightRequests.View()).Remove(old(canceledRequests)[0].id)
    {
      hide View, Step, LeadsUnless;
      ghost var v0 := View(q);
      if canceledRequests == [] {
        UnlessNowhere(limit, v0, duty);
        return Closed, [];
      }
      HearGuard(q);
      UnlessOne(limit, v0, duty, TakeGuard);
      status, trace := Active, [TakeGuard];
    }

    /** Expires one request whose deadline has passed, if there is one. */
    method ExpireOne(ghost q: seq<Reply>) returns (r: Poll<Option<Id>>, ghost e: Event)
      requires inFlightRequests.Valid()
      modifies this`acts, inFlightRequests, aborts
      ensures inFlightRequests.Valid() && e.Expire?
      ensures inFlightRequests.requestData.Keys <= old(inFlightRequests.requestData).Keys
      ensures match r
              case Ready(Some(id)) => InFlight() < old(InFlight()) && Step(old(View(q)), e) == Some(View(q))
              case Ready(None) => inFlightRequests.requestData == map[] && View(q) == old(View(q))
              case Pending =>
                && inFlightRequests.requestData != map[] && NoneExpired(inFlightRequests.View(), now)
                && View(q) == old(View(q))
      ensures r.Pending? || r.value.None? ==> inFlightRequests.View() == old(inFlightRequests.View())
    {
      hide NoneExpired;
      ghost var key;
      r, key := inFlightRequests.PollExpired(now, aborts);
      e := Expire(key);
      if r.Ready? && r.value.Some? {
        RemoveShrinks(old(inFlightRequests.requestData), r.value.value);
        acts := acts + [End(r.value.value, ByDeadline)];
      }
    }

    /** A deadline that passed: its request is no longer tracked and its handler is aborted. */
    method PollExpiration(ghost limit: Option<nat>, ghost duty: Duty, ghost q: seq<Reply>)
      returns (status: ReceiverStatus, ghost trace: seq<Event>)
      requires Valid()
      requires Reading(limit, duty)
      modifies this`acts, inFlightRequests, aborts
      ensures Valid() && LeadsUnless(false, limit, old(View(q)), duty, trace, View(q), duty)
      ensures InFlight() <= old(InFlight()) && Work() <= old(Work())
      ensures inFlightRequests.requestData.Keys <= old(inFlightRequests.requestData).Keys
      ensures match status
              case Active => Work() < old(Work())
              case Closed =>
                && inFlightRequests.requestData == map[] && NoneExpired(inFlightRequests.View(), now)
                && View(q) == old(View(q))
              case Waiting =>
                && inFlightRequests.requestData != map[] && NoneExpired(inFlightRequests.View(), now)
                && View(q) == old(View(q))
      ensures DueFirst(trace, old(inFlightRequests.View()), now)
    {
      hide View, Step, LeadsUnless;
      ghost var v0, e := View(q), TakeGuard;
      UnlessNowhere(limit, v0, duty);
      trace := [];
      var r;
      r, e := ExpireOne(q);
      match r {
        case Ready(None) =>
          EmptyTogether(inFlightRequests.View());
          status := Closed;
        case Pending => status := Waiting;
        case Ready(Some(id)) =>
          UnlessOne(limit, v0, duty, e);
          status, trace := Active, [e];
      }
    }

    /** Cleans up after one guard and one deadline. */
    method CleanUp(ghost limit: Option<nat>, ghost duty: Duty, ghost q: seq<Reply>)
      returns (status: ReceiverStatus, ghost trace: seq<Event>)
      requires Valid()
      requires Reading(limit, duty)
      modifies this`canceledRequests, this`acts, inFlightRequests, aborts
      ensures Valid() && LeadsUnless(false, limit, old(View(q)), duty, trace, View(q), duty)
      ensures InFlight() <= old(InFlight()) && Work() <= old(Work()) && Suffix(canceledRequests, old(canceledRequests))
      ensures inFlightRequests.requestData.Keys <= old(inFlightRequests.requestData).Keys
      ensures if status.Active? then Work() < old(Work())
              else && canceledRequests == [] && NoneExpired(inFlightRequests.View(), now)
                   && (status.Closed? <==> inFlightRequests.requestData == map[])
      ensures CleansFirst(trace, old(canceledRequests), old(inFlightRequests.View()), now)
    {
      hide View, LeadsUnless, NoneExpired;
      ghost var v0 := View(q);
      var cancellation;
      cancellation, trace := PollCancellation(limit, duty, q);
      ghost var v1 := View(q);
      var expiration;
      ghost var es;
      expiration, es := PollExpiration(limit, duty, q);
      UnlessOn(limit, false, v0, duty, trace, v1, duty, false, es, View(q), duty);
      trace := trace + es;
      status := cancellation.Combine(expiration);
    }

    /** Tracks a request just read, unless one with the same id is being tracked. */
    method StartRequest(request: Request, ghost q: seq<Reply>) returns (r: Option<TrackedRequest>, ghost key: Key)
      requires Valid() && transport.read != [] && transport.read[|transport.read| - 1] == Call(request)
      modifies this`started, this`handlers, this`acts, inFlightRequests
      ensures Valid()
      ensures if request.id in old(inFlightRequests.requestData)
              then r == None && View(q) == old(View(q))
              else && key !in old(inFlightRequests.deadlines) && r == Some(TrackedRequest(request, |old(handlers)|))
                   && View(q) == ServerProtocol.StartRequest(
                        old(View(q)).(received := transport.read[..|transport.read| - 1]), request, key)
                   && InFlight() == old(InFlight()) + 1
    {
      var ok;
      ok, key := inFlightRequests.StartRequest(request.id, request.deadline, started, now);
      if ok {
        r := Some(TrackedRequest(request, started));
        started := started + 1;
        handlers := handlers + [Handler(request, |transport.read| - 1, Fresh)];
        acts := acts + [Start(request.id)];
      } else {
        r := None;
      }
    }

    /** A `Cancel` just read: its request is no longer tracked and its handler is aborted. */
    method CancelRequest(id: Id, ghost q: seq<Reply>)
      requires Valid() && transport.read != [] && transport.read[|transport.read| - 1] == Cancel(id)
      modifies this`acts, inFlightRequests, aborts
      ensures Valid() && InFlight() <= old(InFlight())
      ensures View(q) == AbortRequest(old(View(q)), id, ByCancel, CancelArrived(|transport.read| - 1))
    {
      var found := inFlightRequests.CancelRequest(id, CancelArrived(|transport.read| - 1), aborts);
      if found {
        RemoveShrinks(old(inFlightRequests.requestData), id);
        acts := acts + [End(id, ByCancel)];
      }
    }

    /** What the stream owes once the channel has yielded a request. */
    ghost function Owed(duty: Duty, t: Option<TrackedRequest>): Duty
      reads inFlightRequests
    {
      if t.Some? && 0 < InFlight() then Holding(t.value.handle, Seen(duty), InFlight() - 1) else duty
    }

    method TakeCall(request: Request, ghost limit: Option<nat>, ghost duty: Duty, ghost q: seq<Reply>)
      returns (r: Option<TrackedRequest>, ghost e: Event)
      requires Valid() && transport.inbound != [] && transport.inbound[0] == Message(Call(request))
      requires Reading(limit, duty)
      modifies this`transport, this`started, this`handlers, this`acts, inFlightRequests
      ensures Valid() && transport == old(transport).PollNext().0 && Step(old(View(q)), e) == Some(View(q))
      ensures Next(limit, duty, old(View(q)), e) == Some(Owed(duty, r)) && e.Take?
      ensures match r
              case Some(t) => && YieldedFrom(t, old(handlers)) && t.request == request
                              && InFlight() == old(InFlight()) + 1
                              && request.id !in old(inFlightRequests.requestData)
              case None => request.id in old(inFlightRequests.requestData)
                           && handlers == old(handlers) && InFlight() == old(InFlight())
    {
      transport := transport.PollNext().0;
      assert transport.read[..|transport.read| - 1] == old(transport.read);
      ghost var key;
      r, key := StartRequest(request, q);
      e := Take(Call(request), key);
    }

    method TakeCancel(id: Id, ghost q: seq<Reply>)
      requires Valid() && transport.inbound != [] && transport.inbound[0] == Message(Cancel(id))
      modifies this`transport, this`acts, inFlightRequests, aborts
      ensures Valid() && transport == old(transport).PollNext().0 && InFlight() <= old(InFlight())
      ensures Step(old(View(q)), Take(Cancel(id), 0)) == Some(View(q))
    {
      transport := transport.PollNext().0;
      CancelRequest(id, q);
    }

    /** `t` is the newest handler, tracked and not yet guarded. */
    ghost predicate YieldedFrom(t: TrackedRequest, before: seq<Handler>)
      reads this, inFlightRequests
    {
      && t.handle == |before| && transport.read != []
      && handlers == before + [Handler(t.request, |transport.read| - 1, Fresh)]
      && t.request.id in inFlightRequests.requestData && inFlightRequests.requestData[t.request.id].data == t.handle
    }

    ghost predicate Welcomes(r: Inbound, first: Option<Request>) {
      first.Some? ==> r.Yield? && r.tracked.request == first.value
    }

    /** Reads one message and acts on it. */
    method PollInbound(ghost limit: Option<nat>, ghost duty: Duty, ghost q: seq<Reply>)
      returns (r: Inbound, ghost trace: seq<Event>)
      requires Valid()
      requires Reading(limit, duty)
      modifies this`transport, this`started, this`handlers, this`acts, inFlightRequests, aborts
      ensures Valid() && transport == old(transport).PollNext().0 && OnlyRead(old(transport), transport)
      ensures old(transport).Took(transport, if r.Broke? then ReadCause(Some(r.error)) else None)
      ensures LeadsUnless(false, limit, old(View(q)), duty, trace, View(q),
                          Owed(duty, if r.Yield? then Some(r.tracked) else None))
      ensures InFlight() <= old(InFlight()) + if r.Yield? then 1 else 0
      ensures if r.Yield? then YieldedFrom(r.tracked, old(handlers)) else handlers == old(handlers)
      ensures r.Other? && !r.status.Active? ==> inFlightRequests.View() == old(inFlightRequests.View())
      ensures match r
              case Broke(e) => e.ReadError?
              case Other(Closed) => transport.inbound == [] && transport.ended
              case Other(Waiting) => transport.inbound == [] && !transport.ended
              case _ => |transport.inbound| < |old(transport).inbound|
      ensures Welcomes(r, NewFirst(old(transport).inbound, old(inFlightRequests.requestData).Keys))
      // what becomes of each item
      ensures match old(transport).PollNext().1
              case Ready(Some(Ok(Call(request)))) =>
                if request.id in old(inFlightRequests.requestData) then r == Duplicate
                else r == Yield(TrackedRequest(request, |old(handlers)|))
              case Ready(Some(Ok(Cancel(_)))) => r == Other(Active)
              case Ready(Some(Err(cause))) => r == Broke(ReadError(cause))
              case Ready(None) => r == Other(Closed)
              case Pending => r == Other(Waiting)
    {
      hide Step, LeadsUnless, Transport.Took;
      ghost var v0 := View(q);
      UnlessNowhere(limit, v0, duty);
      TookOne(transport);
      trace := [];
      match transport.PollNext().1 {
        case Ready(Some(Ok(Call(request)))) =>
          var t;
          ghost var e;
          t, e := TakeCall(request, limit, duty, q);
          UnlessOne(limit, v0, duty, e);
          r, trace := if t.Some? then Yield(t.value) else Duplicate, [e];
        case Ready(Some(Ok(Cancel(id)))) =>
          TakeCancel(id, q);
          UnlessOne(limit, v0, duty, Take(Cancel(id), 0));
          r, trace := Other(Active), [Take(Cancel(id), 0)];
        case Ready(Some(Err(cause))) =>
          transport := transport.PollNext().0;
          r := Broke(ReadError(cause));
        case Ready(None) => r := Other(Closed);
        case Pending => r := Other(Waiting);
      }
    }

    /** Nothing can be read and nothing needs cleaning up. */
    ghost predicate ReadIdle()
      reads this, inFlightRequests
    {
      transport.inbound == [] && canceledRequests == [] && NoneExpired(inFlightRequests.View(), now)
    }

    /** What the result of a poll means, given the handlers and the number in flight before it. */
    ghost predicate Meant(r: StreamPoll, before: seq<Handler>, were: nat)
      reads this, inFlightRequests
    {
      match r
      case Ready(Some(Ok(t))) => YieldedFrom(t, before) && InFlight() <= were + 1
      case Ready(Some(Err(e))) => e.ReadError? && handlers == before && InFlight() <= were
      case Ready(None) =>
        ReadIdle() && transport.ended && inFlightRequests.requestData == map[] && handlers == before
      case Pending =>
        && ReadIdle() && !(transport.ended && inFlightRequests.requestData == map[])
        && handlers == before && InFlight() <= were
    }

    /** `first`, if there is such a request, is what polling ends with. */
    ghost predicate Yields(r: Option<StreamPoll>, first: Option<Request>) {
      first.Some? ==> r.Some? && YieldedBy(r.value).Some? && YieldedBy(r.value).value.request == first.value
    }

    /** Cleans up, then reads one message. */
    method CleanAndRead(ghost limit: Option<nat>, ghost duty: Duty, ghost q: seq<Reply>)
      returns (cleaned: ReceiverStatus, inbound: Inbound, ghost trace: seq<Event>)
      requires Valid()
      requires Reading(limit, duty)
      modifies this`transport, this`canceledRequests, this`started, this`handlers, this`acts, inFlightRequests, aborts
      ensures Valid() && OnlyRead(old(transport), transport) && Suffix(canceledRequests, old(canceledRequests))
      ensures old(transport).Took(transport, if inbound.Broke? then ReadCause(Some(inbound.error)) else None)
      ensures LeadsUnless(false, limit, old(View(q)), duty, trace, View(q),
                          Owed(duty, if inbound.Yield? then Some(inbound.tracked) else None))
      ensures Welcomes(inbound, NewFirst(old(transport).inbound, old(inFlightRequests.requestData).Keys))
      ensures InFlight() <= old(InFlight()) + if inbound.Yield? then 1 else 0
      ensures if inbound.Yield? then YieldedFrom(inbound.tracked, old(handlers)) else handlers == old(handlers)
      ensures match inbound
              case Broke(e) => e.ReadError?
              case Other(Closed) => transport.inbound == [] && transport.ended
              case Other(Waiting) => transport.inbound == [] && !transport.ended
              case _ => |transport.inbound| < |old(transport).inbound|
      ensures inbound.Duplicate? || (inbound.Other? && (inbound.status.Active? || cleaned.Active?)) ==>
                Work() < old(Work())
      ensures inbound.Other? && !inbound.status.Active? && !cleaned.Active? ==>
                && canceledRequests == [] && NoneExpired(inFlightRequests.View(), now)
                && (cleaned.Closed? <==> inFlightRequests.requestData == map[])
      ensures CleansFirst(trace, old(canceledRequests), old(inFlightRequests.View()), now)
    {
      hide View, LeadsUnless, Suffix, NoneExpired, YieldedFrom, NewFirst, CleansFirst, Transport.Took,
           Transport.PollNext;
      ghost var v0, es, tracked := View(q), [], inFlightRequests.requestData.Keys;
      cleaned, trace := CleanUp(limit, duty, q);
      ghost var v1 := View(q);
      if NewFirst(transport.inbound, tracked).Some? {
        NewFirstStill(transport.inbound, tracked, inFlightRequests.requestData.Keys);
      }
      inbound, es := PollInbound(limit, duty, q);
      CleansStill(trace, es, old(canceledRequests), old(inFlightRequests.View()), now);
      UnlessOn(limit, false, v0, duty, trace, v1, duty, false, es, View(q),
               Owed(duty, if inbound.Yield? then Some(inbound.tracked) else None));
      trace := trace + es;
    }

    /** One turn of the loop: cleans up, then reads; None if polling goes on. */
    method Turn(ghost limit: Option<nat>, ghost duty: Duty, ghost q: seq<Reply>)
      returns (r: Option<StreamPoll>, ghost trace: seq<Event>)
      requires Valid()
      requires Reading(limit, duty)
      modifies this`transport, this`canceledRequests, this`started, this`handlers, this`acts, inFlightRequests, aborts
      ensures Valid() && OnlyRead(old(transport), transport) && Suffix(canceledRequests, old(canceledRequests))
      ensures old(transport).Took(transport, if r.Some? then BrokenBy(r.value) else None)
      ensures LeadsUnless(false, limit, old(View(q)), duty, trace, View(q),
                          Owed(duty, if r.Some? then YieldedBy(r.value) else None))
      ensures Yields(r, NewFirst(old(transport).inbound, old(inFlightRequests.requestData).Keys))
      ensures match r
              case None => Work() < old(Work()) && handlers == old(handlers) && InFlight() <= old(InFlight())
              case Some(p) => && Meant(p, old(handlers), old(InFlight()))
                              && (YieldedBy(p).Some? ==> |transport.inbound| < |old(transport).inbound|)
      ensures CleansFirst(trace, old(canceledRequests), old(inFlightRequests.View()), now)
    {
      hide View, LeadsUnless, Suffix, NoneExpired, YieldedFrom, NewFirst, Transport.Took, Work, CleansFirst;
      var cleaned, inbound;
      cleaned, inbound, trace := CleanAndRead(limit, duty, q);
      match inbound {
        case Yield(t) => r := Some(Ready(Some(Ok(t))));
        case Broke(e) => r := Some(Ready(Some(Err(e))));
        case Duplicate => r := None;
        case Other(request) =>
          var status := cleaned.Combine(request);
          r := match status
               case Active => None
               case Closed => Some(Ready(None))
               case Waiting => Some(Pending);
      }
    }

    /** Yields the next request, after cleaning up what was cancelled or has expired. */
    method PollNext(ghost limit: Option<nat>, ghost duty: Duty, ghost q: seq<Reply>)
      returns (r: StreamPoll, ghost trace: seq<Event>)
      requires Valid()
      requires Reading(limit, duty)
      modifies this`transport, this`canceledRequests, this`started, this`handlers, this`acts, inFlightRequests, aborts
      ensures Valid() && OnlyRead(old(transport), transport) && Suffix(canceledRequests, old(canceledRequests))
      ensures old(transport).Took(transport, BrokenBy(r))
      ensures LeadsUnless(false, limit, old(View(q)), duty, trace, View(q), Owed(duty, YieldedBy(r)))
      ensures Meant(r, old(handlers), old(InFlight()))
      // a new request that waits first is yielded
      ensures Yields(Some(r), NewFirst(old(transport).inbound, old(inFlightRequests.requestData).Keys))
      ensures YieldedBy(r).Some? ==> |transport.inbound| < |old(transport).inbound|
      // whatever the result, a guard that waits is heard and what is due expires before anything is read
      ensures CleansFirst(trace, old(canceledRequests), old(inFlightRequests.View()), now)
    {
      hide View, LeadsUnless, Meant, Work, NewFirst, Transport.Took, CleansFirst;
      ghost var v0 := View(q);
      UnlessNowhere(limit, v0, duty);
      TookNothing(transport, transport);
      trace := [];
      ghost var began := false;
      while true
        invariant Valid() && OnlyRead(old(transport), transport) && Suffix(canceledRequests, old(canceledRequests))
        invariant old(transport).Took(transport, None)
        invariant NewFirst(old(transport).inbound, old(inFlightRequests.requestData).Keys).Some? ==>
                    transport == old(transport) && inFlightRequests.requestData == old(inFlightRequests.requestData)
        invariant LeadsUnless(false, limit, v0, duty, trace, View(q), duty)
        invariant handlers == old(handlers) && InFlight() <= old(InFlight())
        invariant if began then CleansFirst(trace, old(canceledRequests), old(inFlightRequests.View()), now)
                  else && trace == [] && canceledRequests == old(canceledRequests)
                       && inFlightRequests.View() == old(inFlightRequests.View())
        decreases Work()
      {
        ghost var es, v1, t1, c1, were := [], View(q), transport, canceledRequests, InFlight();
        var turn;
        turn, es := Turn(limit, duty, q);
        UnlessOn(limit, false, v0, duty, trace, v1, duty, false, es, View(q),
                 Owed(duty, if turn.Some? then YieldedBy(turn.value) else None));
        SuffixOfSuffix(canceledRequests, c1, old(canceledRequests));
        TookOn(old(transport), t1, transport, if turn.Some? then BrokenBy(turn.value) else None);
        if began {
          CleansStill(trace, es, old(canceledRequests), old(inFlightRequests.View()), now);
        } else {
          assert trace + es == es;
          began := true;
        }
        trace := trace + es;
        if turn.Some? {
          MeantSince(turn.value, old(handlers), were, old(InFlight()));
          return turn.value, trace;
        }
      }
    }

    lemma MeantSince(r: StreamPoll, before: seq<Handler>, were: nat, ever: nat)
      requires Meant(r, before, were) && were <= ever
      ensures Meant(r, before, ever)
    {
    }

    // ---------------------------------------------------------------- the sink of responses

    method PollReady(ghost q: seq<Reply>) returns (r: Poll<Result<(), ChannelError>>)
      requires transport.Valid()
      modifies this`transport
      ensures transport.Valid() && old(transport).SameTraffic(transport) && transport.flushed == old(transport.flushed)
      ensures View(q) == old(View(q))
      ensures transport == old(transport).PollReady().0 && r == AsReady(old(transport).PollReady().1)
      ensures match r
              case Ready(Ok(_)) => transport.HasRoom()
              case Ready(Err(e)) => e.ReadyError? && !transport.Faultless()
              case Pending => !transport.HasRoom()
    {
      var (t, ready) := transport.PollReady();
      transport := t;
      match ready {
        case Ready(Ok(_)) => r := Ready(Ok(()));
        case Ready(Err(cause)) => r := Ready(Err(ReadyError(cause)));
        case Pending => r := Pending;
      }
    }

    method PollFlush(ghost q: seq<Reply>) returns (r: Poll<Result<(), ChannelError>>)
      requires transport.Valid()
      modifies this`transport
      ensures transport.Valid() && old(transport).SameTraffic(transport)
      ensures old(transport).Flushes(transport)
      ensures View(q) == old(View(q))
      ensures transport == old(transport).PollFlush().0
      ensures match old(transport).PollFlush().1
              case Ready(Ok(_)) => r == Ready(Ok(()))
              case Ready(Err(cause)) => r == Ready(Err(FlushError(cause)))
              case Pending => r == Pending
      ensures match r
              case Ready(Ok(_)) => transport.canFlush && transport.flushed == |transport.written|
              case Ready(Err(e)) => e.FlushError? && !transport.Faultless()
              case Pending => !transport.canFlush
    {
      var (t, flush) := transport.PollFlush();
      transport := t;
      match flush {
        case Ready(Ok(_)) => r := Ready(Ok(()));
        case Ready(Err(cause)) => r := Ready(Err(FlushError(cause)));
        case Pending => r := Pending;
      }
    }

    /** Writes the response if its request is still tracked; the request no longer is. */
    method StartSend(reply: Reply, ghost q: seq<Reply>) returns (r: Result<(), ChannelError>)
      requires Valid() && transport.HasRoom()
      modifies this`transport, this`acts, inFlightRequests
      ensures Valid() && old(transport).SameEnv(transport) && transport.flushed == old(transport.flushed)
      ensures View(q) == SendReply(old(View(q)), reply, r.Ok?)
      ensures r.Err? ==>
                r.error.WriteError? && reply.resp.id in old(inFlightRequests.requestData) && !transport.Faultless()
      ensures inFlightRequests.View() == old(inFlightRequests.View()).Remove(reply.resp.id)
      ensures transport.written
              == if reply.resp.id in old(inFlightRequests.requestData) && r.Ok? then old(transport.written) + [reply]
                 else old(transport.written)
    {
      var found := inFlightRequests.RemoveRequest(reply.resp.id);
      r := Ok(());
      if found {
        var (t, result) := transport.StartSend(reply);
        transport := t;
        r := match result case Ok(_) => Ok(()) case Err(cause) => Err(WriteError(cause));
        acts := acts + [End(reply.resp.id, if r.Ok? then Answered else LostWrite)];
      }
    }

    /** Dropping the channel aborts every handler whose request is still tracked. */
    method Drop(ghost q: seq<Reply>)
      modifies this`canceledRequests, inFlightRequests, aborts
      ensures Step(old(View(q)), DropChannel) == Some(View([]).(alive := false))
    {
      canceledRequests := [];
      inFlightRequests.DropAll(aborts);
    }
  }
}
