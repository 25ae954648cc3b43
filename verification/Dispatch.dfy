/** `RequestDispatch`: the task that moves requests, responses and cancellations. */
module Dispatch {
  import opened Types
  import opened Flights
  import opened DispatchProtocol
  import opened ClientInFlight
  import opened Transports

  /** No request failed to be written. */
  ghost predicate SendsOk(es: seq<Event>) {
    forall p :: 0 <= p < |es| ==> !es[p].SendFail?
  }

  /** Ids in the queue are distinct and not in flight. */
  ghost predicate Unsent(pending: seq<Request>, fly: set<Id>) {
    && (forall p :: 0 <= p < |pending| ==> pending[p].id !in fly)
    && (forall p, q :: 0 <= p < q < |pending| ==> pending[p].id != pending[q].id)
  }

  /** The invariant of the whole client gives what the methods below ask of the queue. */
  lemma QueueIsUnsent(d: State)
    requires PlacesOk(d.accepted, d.sites, d.pending, d.flights.slots.Keys, d.pc)
    ensures Unsent(d.pending, d.flights.slots.Keys)
  {
  }

  lemma NoneUnsent(fly: set<Id>)
    ensures Unsent([], fly)
  {
  }

  lemma UnsentAfter(q: seq<Request>, fly: set<Id>, k: nat, fly': set<Id>)
    requires Unsent(q, fly) && k < |q| && fly' <= fly + {q[k].id}
    ensures Unsent(q[k + 1..], fly') && q[k].id !in fly
  {
  }

  /** The first request whose caller is still there. */
  function FirstOpen(q: seq<Request>, closed: set<Id>): (k: nat)
    ensures k <= |q|
    ensures forall p :: 0 <= p < k ==> q[p].id in closed
    ensures k < |q| ==> q[k].id !in closed
  {
    if q == [] || q[0].id !in closed then 0 else 1 + FirstOpen(q[1..], closed)
  }

  lemma {:induction false} FirstOpenIs(q: seq<Request>, closed: set<Id>, k: nat)
    requires k <= |q| && (forall p :: 0 <= p < k ==> q[p].id in closed) && (k < |q| ==> q[k].id !in closed)
    ensures FirstOpen(q, closed) == k
  {
    if k == 0 {
    } else {
      FirstOpenIs(q[1..], closed, k - 1);
    }
  }

  /** The first cancelled id that is in flight. */
  function FirstFlying(q: seq<Id>, fly: set<Id>): (k: nat)
    ensures k <= |q|
    ensures forall p :: 0 <= p < k ==> q[p] !in fly
    ensures k < |q| ==> q[k] in fly
  {
    if q == [] || q[0] in fly then 0 else 1 + FirstFlying(q[1..], fly)
  }

  lemma {:induction false} FirstFlyingIs(q: seq<Id>, fly: set<Id>, k: nat)
    requires k <= |q| && (forall p :: 0 <= p < k ==> q[p] !in fly) && (k < |q| ==> q[k] in fly)
    ensures FirstFlying(q, fly) == k
  {
    if k == 0 {
    } else {
      FirstFlyingIs(q[1..], fly, k - 1);
    }
  }

  function MarkAll(sites: Sites, ids: set<Id>, site: Site): Sites {
    sites + map i | i in ids :: site
  }

  /** The dispatcher's state once every request in flight was sent `v`. */
  ghost function WithoutFlights(d: State, v: Outcome): State {
    d.(flights := NoFlights(), txs := DeliverTo(d.txs, d.closed, d.flights.slots.Keys, v),
       sites := MarkAll(d.sites, d.flights.slots.Keys, Done(Completed(v))))
  }

  lemma DeliverOneLess(txs: Txs, closed: set<Id>, ids: set<Id>, i: Id, v: Outcome)
    requires i in ids
    ensures DeliverTo(Deliver(txs, closed, i, v), closed, ids - {i}, v) == DeliverTo(txs, closed, ids, v)
  {
  }

  lemma MarkOneLess(sites: Sites, ids: set<Id>, i: Id, site: Site)
    requires i in ids
    ensures MarkAll(sites[i := site], ids - {i}, site) == MarkAll(sites, ids, site)
  {
  }

  lemma DrainOne(d: State, i: Id, v: Outcome)
    requires d.flights.Agree() && i in d.flights.slots && Draining(d) && v == Err(Channel(d.terminal.value))
    ensures Step(d, DrainFlight(i)) == Some(DispatchProtocol.Complete(d, i, v))
    ensures WithoutFlights(DispatchProtocol.Complete(d, i, v), v) == WithoutFlights(d, v)
  {
    hide DeliverTo, MarkAll, Deliver;
    assert d.flights.Remove(i).slots.Keys == d.flights.slots.Keys - {i};
    DeliverOneLess(d.txs, d.closed, d.flights.slots.Keys, i, v);
    MarkOneLess(d.sites, d.flights.slots.Keys, i, Done(Completed(v)));
  }

  /** Completing all requests at once is a run of completing them one by one. */
  lemma {:induction false} DrainFlights(d: State, v: Outcome) returns (es: seq<Event>)
    requires d.flights.Agree() && Draining(d) && v == Err(Channel(d.terminal.value))
    ensures Exec(d, es) == Some(WithoutFlights(d, v)) && SendsOk(es)
    decreases |d.flights.slots|
  {
    hide Step, WithoutFlights;
    if i :| i in d.flights.slots {
      var d' := DispatchProtocol.Complete(d, i, v);
      DrainOne(d, i, v);
      RemoveAgrees(d.flights, i);
      RemoveShrinks(d.flights.slots, i);
      var rest := DrainFlights(d', v);
      es := [DrainFlight(i)] + rest;
      assert es[0] == DrainFlight(i) && es[1..] == rest;
    } else {
      NothingFlies(d, v);
      es := [];
    }
  }

  lemma NothingFlies(d: State, v: Outcome)
    requires d.flights.Agree() && (forall i :: i !in d.flights.slots)
    ensures WithoutFlights(d, v) == d
  {
    assert d.flights.slots == map[];
    EmptyTogether(d.flights);
    assert WithoutFlights(d, v).txs == d.txs && WithoutFlights(d, v).sites == d.sites;
  }

  /** What a half that did not fail got done: nothing for now, one thing, or nothing ever again. */
  datatype Progress = Waiting | Moved | Ended

  function ProgressOf(p: Poll<Option<Result<(), ChannelError>>>): Progress {
    match p
    case Pending => Waiting
    case Ready(None) => Ended
    case Ready(Some(_)) => Moved
  }

  /** The error of the stream that a poll reports, if any. */
  function BrokenBy(r: Poll<Result<(), ChannelError>>): Option<Cause> {
    if r.Ready? && r.value.Err? then ReadCause(Some(r.value.error)) else None
  }

  /** What a poll finds and leaves as it is. */
  datatype Frozen = Frozen(permits: set<Id>, open: bool, closed: set<Id>, now: Time,
                           ended: bool, canFlush: bool, canClose: bool)

  class RequestDispatch {
    var transport: Transport<ClientMessage, Response>
    var pendingRequests: seq<Request>
    var pendingClosed: bool
    var permits: set<Id>
    var channelOpen: bool
    var canceledRequests: seq<Id>
    const inFlightRequests: InFlightRequests
    const oneshots: Oneshots
    var terminalError: Option<ChannelError>
    var now: Time
    const maxInFlight: nat

    // history
    ghost var accepted: map<Id, Request>
    ghost var sites: Sites
    ghost var wroteAt: map<Id, nat>
    ghost var cancelAt: map<Id, nat>

    ghost function View(pc: Pc): State
      reads this, inFlightRequests, oneshots
    {
      State(pendingRequests, pendingClosed, permits, channelOpen, canceledRequests, oneshots.closed, accepted,
            oneshots.txs, sites, inFlightRequests.View(), pc, Polling, terminalError,
            Log(transport.written, wroteAt, cancelAt), transport.read, now, maxInFlight)
    }

    ghost function Env(): Frozen
      reads this, oneshots
    {
      Frozen(permits, channelOpen, oneshots.closed, now, transport.ended, transport.canFlush, transport.canClose)
    }

    ghost predicate Valid()
      reads this, inFlightRequests
    {
      inFlightRequests.Valid() && transport.Valid() && Unsent(pendingRequests, inFlightRequests.requestData.Keys)
    }

    constructor (max: nat, t: Transport<ClientMessage, Response>)
      requires t.Valid() && t.read == [] && t.written == []
      ensures Valid() && fresh(inFlightRequests) && fresh(oneshots)
      ensures View(Idle) == State([], false, {}, true, [], {}, map[], map[], map[], NoFlights(), Idle, Polling, None,
                                  Log([], map[], map[]), [], 0, max)
      ensures transport == t
    {
      transport := t;
      pendingRequests, pendingClosed, permits, channelOpen := [], false, {}, true;
      canceledRequests := [];
      inFlightRequests := new InFlightRequests();
      oneshots := new Oneshots();
      terminalError, now, maxInFlight := None, 0, max;
      accepted, sites, wroteAt, cancelAt := map[], map[], map[], map[];
    }

    /** The request queue will yield nothing any more. */
    predicate RequestsOver()
      reads this
    {
      pendingRequests == [] && permits == {} && (pendingClosed || !channelOpen)
    }

    predicate AtCapacity()
      reads this, inFlightRequests
    {
      |inFlightRequests.requestData| >= maxInFlight
    }

    /** Flushes until a message can be written. */
    method EnsureWriteable() returns (r: Poll<Result<(), ChannelError>>)
      requires transport.Valid()
      modifies this`transport
      ensures transport.Valid() && old(transport).SameTraffic(transport)
      ensures r.Ready? && r.value.Ok? ==> transport.HasRoom()
      ensures r.Pending? ==> !transport.canFlush
      ensures r.Ready? && r.value.Err? ==> r.value.error.ReadyError? || r.value.error.FlushError?
      ensures r.Ready? && r.value.Err? ==> !transport.Faultless()
      // which operation fails, and why, decides the error
      ensures (transport, r) == old(transport).Writeable()
    {
      while true
        invariant transport.Valid() && old(transport).SameTraffic(transport)
        invariant transport == old(transport) || FlushedFrom(old(transport), transport)
        decreases !transport.HasRoom()
      {
        var (t, ready) := transport.PollReady();
        transport := t;
        match ready {
          case Ready(Ok(_)) => return Ready(Ok(()));
          case Ready(Err(cause)) => return Ready(Err(ReadyError(cause)));
          case Pending =>
        }
        var (t', flush) := transport.PollFlush();
        transport := t';
        match flush {
          case Ready(Ok(_)) =>
          case Ready(Err(cause)) => return Ready(Err(FlushError(cause)));
          case Pending => return Pending;
        }
      }
    }

    // ---------------------------------------------------------------- requests

    method TakeRequest() returns (request: Request)
      requires pendingRequests != [] && !AtCapacity() && terminalError.None?
      modifies this`pendingRequests, this`sites
      ensures [request] + pendingRequests == old(pendingRequests)
      ensures Step(old(View(Idle)), Recv) == Some(View(Received(request)))
    {
      request := pendingRequests[0];
      pendingRequests := pendingRequests[1..];
      sites := sites[request.id := InHand];
    }

    method SkipRequest(request: Request)
      requires request.id in oneshots.closed
      modifies this`sites, oneshots`txs
      ensures Step(old(View(Received(request))), Abort) == Some(View(Idle))
    {
      oneshots.DropSender(request.id);
      sites := sites[request.id := Done(Aborted)];
    }

    lemma PassStep(request: Request)
      requires request.id !in oneshots.closed
      ensures Step(View(Received(request)), Pass) == Some(View(Passed(request)))
    {
    }

    /** Receives requests until one is found whose caller is still there. */
    method RecvOpen() returns (r: Option<Request>, ghost trace: seq<Event>)
      requires terminalError.None? && !AtCapacity()
      modifies this`pendingRequests, this`sites, oneshots`txs
      ensures Exec(old(View(Idle)), trace) == Some(View(if r.Some? then Passed(r.value) else Idle))
      ensures var k := FirstOpen(old(pendingRequests), oneshots.closed);
              if k < |old(pendingRequests)|
              then r == Some(old(pendingRequests)[k]) && pendingRequests == old(pendingRequests)[k + 1..]
              else r == None && pendingRequests == []
      ensures SendsOk(trace)
    {
      hide Exec, Step, FirstOpen;
      trace := [];
      ghost var v0, q, k := View(Idle), pendingRequests, 0;
      ExecNothing(v0);
      while pendingRequests != []
        invariant terminalError.None? && !AtCapacity()
        invariant k <= |q| && pendingRequests == q[k..]
        invariant forall p :: 0 <= p < k ==> q[p].id in oneshots.closed
        invariant Exec(v0, trace) == Some(View(Idle)) && SendsOk(trace)
        decreases |pendingRequests|
      {
        var request := TakeRequest();
        assert request == q[k] && pendingRequests == q[k + 1..];
        ExecSnoc(v0, trace, Recv);
        trace := trace + [Recv];
        if request.id in oneshots.closed {
          SkipRequest(request);
          ExecSnoc(v0, trace, Abort);
          trace, k := trace + [Abort], k + 1;
        } else {
          FirstOpenIs(q, oneshots.closed, k);
          PassStep(request);
          ExecSnoc(v0, trace, Pass);
          trace := trace + [Pass];
          return Some(request), trace;
        }
      }
      FirstOpenIs(q, oneshots.closed, k);
      r := None;
    }

    /** Yields the next request whose caller is still there, once the transport can take it. */
    method PollNextRequest() returns (r: Poll<Option<Result<Request, ChannelError>>>, ghost trace: seq<Event>)
      requires transport.Valid() && terminalError.None?
      modifies this`transport, this`pendingRequests, this`sites, oneshots`txs
      ensures transport.Valid() && old(transport).SameTraffic(transport)
      ensures Exec(old(View(Idle)), trace)
              == Some(View(if r.Ready? && r.value.Some? && r.value.value.Ok? then Passed(r.value.value.value)
                           else Idle))
      ensures match r
              case Ready(Some(Ok(request))) =>
                var k := FirstOpen(old(pendingRequests), oneshots.closed);
                && k < |old(pendingRequests)| && request == old(pendingRequests)[k]
                && pendingRequests == old(pendingRequests)[k + 1..] && !AtCapacity() && transport.HasRoom()
              case Ready(Some(Err(e))) => pendingRequests == old(pendingRequests) && (e.ReadyError? || e.FlushError?)
              case Ready(None) => RequestsOver()
                    && FirstOpen(old(pendingRequests), oneshots.closed) == |old(pendingRequests)|
              case Pending =>
                || ((AtCapacity() || !transport.canFlush) && pendingRequests == old(pendingRequests))
                || (pendingRequests == [] && !RequestsOver()
                    && FirstOpen(old(pendingRequests), oneshots.closed) == |old(pendingRequests)|)
      ensures SendsOk(trace)
      ensures r.Ready? && r.value.Some? && r.value.value.Err? ==> !transport.Faultless()
    {
      trace := [];
      if AtCapacity() {
        return Pending, trace;
      }
      var ready := EnsureWriteable();
      match ready {
        case Pending => return Pending, trace;
        case Ready(Err(e)) => return Ready(Some(Err(e))), trace;
        case Ready(Ok(_)) =>
      }
      var request;
      request, trace := RecvOpen();
      r := if request.Some? then Ready(Some(Ok(request.value)))
           else if RequestsOver() then Ready(None)
           else Pending;
    }

    /** The request enters the map; its id is never taken already. */
    method InsertInFlight(request: Request) returns (ghost key: Key)
      requires inFlightRequests.Valid() && request.id !in inFlightRequests.requestData
      modifies this`sites, inFlightRequests
      ensures inFlightRequests.Valid()
            && inFlightRequests.requestData.Keys == old(inFlightRequests.requestData).Keys + {request.id}
      ensures |inFlightRequests.requestData| == |old(inFlightRequests.requestData)| + 1
      ensures Step(old(View(Passed(request))), Insert(key)) == Some(View(Inserted(request)))
    {
      var ok;
      ok, key := inFlightRequests.InsertRequest(request.id, request.deadline, now);
      sites := sites[request.id := Flying];
    }

    /** `start_send` of a request. */
    method StartSendRequest(request: Request) returns (result: Result<(), Cause>)
      requires transport.Valid() && transport.HasRoom()
      modifies this`transport, this`wroteAt
      ensures transport.Valid() && old(transport).SameEnv(transport)
      ensures result
            == match old(transport).faults(old(transport).ops) case None => Ok(()) case Some(cause) => Err(cause)
      ensures result.Ok? ==> Step(old(View(Inserted(request))), SendOk) == Some(View(Idle))
      ensures result.Err? ==> old(View(Inserted(request))) == View(Inserted(request))
    {
      var (t, r) := transport.StartSend(Call(request));
      transport, result := t, r;
      if result.Ok? {
        wroteAt := wroteAt[request.id := |transport.written| - 1];
      }
    }

    method CompleteUnsent(request: Request, cause: Cause)
      requires inFlightRequests.Valid() && request.id in inFlightRequests.requestData
      modifies this`sites, inFlightRequests, oneshots`txs
      ensures inFlightRequests.Valid() && inFlightRequests.View() == old(inFlightRequests.View()).Remove(request.id)
      ensures Step(old(View(Inserted(request))), SendFail(cause)) == Some(View(Idle))
    {
      var found := inFlightRequests.CompleteRequest(request.id, Err(Send(cause)), oneshots);
      sites := sites[request.id := Done(Completed(Err(Send(cause))))];
    }

    /** Writes the request, or completes it with the reason why it could not be written. */
    method WriteRequest(request: Request) returns (ghost e: Event)
      requires inFlightRequests.Valid() && transport.Valid() && request.id in inFlightRequests.requestData
      requires transport.HasRoom()
      modifies this`transport, this`sites, this`wroteAt, inFlightRequests, oneshots`txs
      ensures inFlightRequests.Valid() && transport.Valid() && old(transport).SameEnv(transport)
      ensures Step(old(View(Inserted(request))), e) == Some(View(Idle))
      ensures match old(transport).faults(old(transport).ops)
              case None => e == SendOk && inFlightRequests.View() == old(inFlightRequests.View())
              case Some(cause) =>
                e == SendFail(cause) && inFlightRequests.View() == old(inFlightRequests.View()).Remove(request.id)
      ensures inFlightRequests.requestData.Keys <= old(inFlightRequests.requestData).Keys
      ensures |inFlightRequests.requestData| <= |old(inFlightRequests.requestData)|
      ensures e.SendFail? ==> !transport.Faultless()
    {
      hide Step;
      var result := StartSendRequest(request);
      match result {
        case Ok(_) => e := SendOk;
        case Err(cause) =>
          RemoveShrinks(inFlightRequests.requestData, request.id);
          CompleteUnsent(request, cause);
          e := SendFail(cause);
      }
    }

    /** The request is in flight and written, or it was completed with the error of the write. */
    method SendRequest(request: Request) returns (ghost es: seq<Event>)
      requires inFlightRequests.Valid() && transport.Valid() && request.id !in inFlightRequests.requestData
      requires transport.HasRoom()
      modifies this`transport, this`sites, this`wroteAt, inFlightRequests, oneshots`txs
      ensures inFlightRequests.Valid() && transport.Valid() && old(transport).SameEnv(transport)
      ensures Exec(old(View(Passed(request))), es) == Some(View(Idle))
      ensures inFlightRequests.requestData.Keys <= old(inFlightRequests.requestData).Keys + {request.id}
      ensures |inFlightRequests.requestData| <= |old(inFlightRequests.requestData)| + 1
      ensures transport.Faultless() ==> SendsOk(es)
    {
      hide Exec, Step;
      ghost var v0 := View(Passed(request));
      ExecNothing(v0);
      ghost var key := InsertInFlight(request);
      ExecSnoc(v0, [], Insert(key));
      ghost var e := WriteRequest(request);
      ExecSnoc(v0, [] + [Insert(key)], e);
      es := [] + [Insert(key)] + [e];
    }

    /** What is left to do, not counting responses: every step of a poll makes it smaller. */
    ghost function Load(): nat
      reads this`pendingRequests, this`canceledRequests, inFlightRequests
    {
      2 * |pendingRequests| + |canceledRequests| + |inFlightRequests.requestData|
    }

    /** Polls the next request and writes it. */
    method PollWriteRequest() returns (r: Poll<Option<Result<(), ChannelError>>>, ghost trace: seq<Event>)
      requires Valid() && terminalError.None?
      modifies this`transport, this`pendingRequests, this`sites, this`wroteAt, inFlightRequests, oneshots`txs
      ensures Valid() && old(transport).SameEnv(transport)
      ensures Exec(old(View(Idle)), trace) == Some(View(Idle))
      ensures Load() <= old(Load())
      ensures match r
              case Ready(Some(Ok(_))) =>
                var k := FirstOpen(old(pendingRequests), oneshots.closed);
                Load() < old(Load()) && k < |old(pendingRequests)| && pendingRequests == old(pendingRequests)[k + 1..]
              case Ready(Some(Err(e))) => e.ReadyError? || e.FlushError?
              case Ready(None) => RequestsOver() && inFlightRequests.View() == old(inFlightRequests.View())
              case Pending =>
                && inFlightRequests.View() == old(inFlightRequests.View())
                && (AtCapacity() || !transport.canFlush || (pendingRequests == [] && !RequestsOver()))
      ensures transport.Faultless() ==> SendsOk(trace)
      ensures r.Ready? && r.value.Some? && r.value.value.Err? ==> !transport.Faultless()
    {
      hide View, Exec, Step, FirstOpen, Unsent;
      ghost var v0, q, fly := View(Idle), pendingRequests, inFlightRequests.requestData.Keys;
      NoneUnsent(fly);
      var next;
      next, trace := PollNextRequest();
      match next {
        case Pending => r := Pending;
        case Ready(None) => r := Ready(None);
        case Ready(Some(Err(e))) => r := Ready(Some(Err(e)));
        case Ready(Some(Ok(request))) =>
          ghost var k := FirstOpen(q, oneshots.closed);
          UnsentAfter(q, fly, k, fly);
          ghost var es := SendRequest(request);
          ExecAppend(v0, trace, es);
          trace := trace + es;
          UnsentAfter(q, fly, k, inFlightRequests.requestData.Keys);
          r := Ready(Some(Ok(())));
      }
    }

    // ---------------------------------------------------------------- cancellations

    /** Takes one cancellation; drops its request if it is in flight. */
    method TakeCancellation() returns (id: Id, found: bool)
      requires inFlightRequests.Valid() && canceledRequests != [] && terminalError.None?
      modifies this`canceledRequests, this`sites, inFlightRequests, oneshots`txs
      ensures inFlightRequests.Valid() && [id] + canceledRequests == old(canceledRequests)
      ensures found == (id in old(inFlightRequests.requestData))
      ensures inFlightRequests.View() == old(inFlightRequests.View()).Remove(id)
      ensures Step(old(View(Idle)), TakeCancel) == Some(View(if found then Cancelling(id) else Idle))
    {
      id := canceledRequests[0];
      canceledRequests := canceledRequests[1..];
      found := inFlightRequests.CancelRequest(id, oneshots);
      if found {
        sites := sites[id := Done(Cancelled)];
      }
    }

    /** Receives cancellations until one is found whose request is in flight. */
    method RecvFlying() returns (r: Option<Id>, ghost trace: seq<Event>)
      requires inFlightRequests.Valid() && terminalError.None?
      modifies this`canceledRequests, this`sites, inFlightRequests, oneshots`txs
      ensures inFlightRequests.Valid()
      ensures Exec(old(View(Idle)), trace) == Some(View(if r.Some? then Cancelling(r.value) else Idle))
      ensures var k := FirstFlying(old(canceledRequests), old(inFlightRequests.requestData).Keys);
              if k < |old(canceledRequests)|
              then && r == Some(old(canceledRequests)[k]) && canceledRequests == old(canceledRequests)[k + 1..]
                   && inFlightRequests.View() == old(inFlightRequests.View()).Remove(r.value)
                   && r.value in old(inFlightRequests.requestData)
              else r == None && canceledRequests == [] && inFlightRequests.View() == old(inFlightRequests.View())
      ensures SendsOk(trace)
    {
      hide Exec, Step, FirstFlying;
      trace := [];
      ghost var v0, q, k, fly := View(Idle), canceledRequests, 0, inFlightRequests.requestData.Keys;
      ExecNothing(v0);
      while canceledRequests != []
        invariant terminalError.None? && inFlightRequests.Valid()
              && inFlightRequests.View() == old(inFlightRequests.View())
        invariant k <= |q| && canceledRequests == q[k..]
        invariant forall p :: 0 <= p < k ==> q[p] !in fly
        invariant Exec(v0, trace) == Some(View(Idle)) && SendsOk(trace)
        decreases |canceledRequests|
      {
        var id, found := TakeCancellation();
        assert id == q[k] && canceledRequests == q[k + 1..];
        ExecSnoc(v0, trace, TakeCancel);
        trace := trace + [TakeCancel];
        if found {
          FirstFlyingIs(q, fly, k);
          return Some(id), trace;
        }
        k := k + 1;
      }
      FirstFlyingIs(q, fly, k);
      r := None;
    }

    /** `start_send` of a cancel. */
    method StartSendCancel(id: Id) returns (result: Result<(), Cause>)
      requires transport.Valid() && transport.HasRoom()
      modifies this`transport, this`cancelAt
      ensures transport.Valid() && old(transport).SameEnv(transport)
      ensures result
            == match old(transport).faults(old(transport).ops) case None => Ok(()) case Some(cause) => Err(cause)
      ensures result.Ok? ==> Step(old(View(Cancelling(id))), CancelOk) == Some(View(Idle))
      ensures result.Err? ==> old(View(Cancelling(id))) == View(Cancelling(id))
    {
      var (t, r) := transport.StartSend(Cancel(id));
      transport, result := t, r;
      if result.Ok? {
        cancelAt := cancelAt[id := |transport.written| - 1];
      }
    }

    lemma UnsentStill(q: seq<Request>, fly: set<Id>, fly': set<Id>)
      requires Unsent(q, fly) && fly' <= fly
      ensures Unsent(q, fly')
    {
    }

    /** Yields the next cancellation that matters, its request dropped from the map. */
    method PollNextCancellation() returns (r: Poll<Option<Result<Id, ChannelError>>>, ghost trace: seq<Event>)
      requires Valid() && terminalError.None?
      modifies this`transport, this`canceledRequests, this`sites, inFlightRequests, oneshots`txs
      ensures Valid() && old(transport).SameTraffic(transport)
      ensures Exec(old(View(Idle)), trace)
              == Some(View(if r.Ready? && r.value.Some? && r.value.value.Ok? then Cancelling(r.value.value.value)
                           else Idle))
      ensures match r
              case Ready(Some(Ok(id))) =>
                var k := FirstFlying(old(canceledRequests), old(inFlightRequests.requestData).Keys);
                && k < |old(canceledRequests)| && id == old(canceledRequests)[k]
                && canceledRequests == old(canceledRequests)[k + 1..] && transport.HasRoom()
                && |inFlightRequests.requestData| == |old(inFlightRequests.requestData)| - 1
              case Ready(Some(Err(e))) => (e.ReadyError? || e.FlushError?) && Load() == old(Load())
              case Ready(None) =>
                canceledRequests == [] && !channelOpen && inFlightRequests.View() == old(inFlightRequests.View())
              case Pending =>
                && inFlightRequests.View() == old(inFlightRequests.View())
                && ((!transport.canFlush && canceledRequests == old(canceledRequests))
                    || (canceledRequests == [] && channelOpen))
      ensures SendsOk(trace)
      ensures r.Ready? && r.value.Some? && r.value.value.Err? ==> !transport.Faultless()
    {
      hide Exec, Step, CancelEntry, FirstFlying, Unsent, NoneExpired;
      ghost var fly := inFlightRequests.requestData.Keys;
      trace := [];
      ExecNothing(View(Idle));
      var ready := EnsureWriteable();
      match ready {
        case Pending => return Pending, trace;
        case Ready(Err(e)) => return Ready(Some(Err(e))), trace;
        case Ready(Ok(_)) =>
      }
      var next;
      next, trace := RecvFlying();
      if next.Some? {
        RemoveShrinks(old(inFlightRequests.requestData), next.value);
        UnsentStill(pendingRequests, fly, inFlightRequests.requestData.Keys);
        r := Ready(Some(Ok(next.value)));
      } else {
        r := if channelOpen then Pending else Ready(None);
      }
    }

    /** Polls the next cancellation that matters and writes it. */
    method PollWriteCancel() returns (r: Poll<Option<Result<(), ChannelError>>>, ghost trace: seq<Event>, ghost pc: Pc)
      requires Valid() && terminalError.None?
      modifies this`transport, this`canceledRequests, this`sites, this`cancelAt, inFlightRequests, oneshots`txs
      ensures Valid() && old(transport).SameEnv(transport)
      ensures Exec(old(View(Idle)), trace) == Some(View(pc))
      ensures Load() <= old(Load())
      ensures match r
              case Ready(Some(Ok(_))) => pc == Idle && Load() < old(Load())
              case Ready(Some(Err(e))) =>
                if e.WriteError? then pc.Cancelling? else pc == Idle && (e.ReadyError? || e.FlushError?)
              case Ready(None) =>
                pc == Idle && canceledRequests == [] && !channelOpen
                      && inFlightRequests.View() == old(inFlightRequests.View())
              case Pending =>
                && pc == Idle && inFlightRequests.View() == old(inFlightRequests.View())
                && (!transport.canFlush || (canceledRequests == [] && channelOpen))
      ensures SendsOk(trace)
      ensures r.Ready? && r.value.Some? && r.value.value.Err? ==> !transport.Faultless()
    {
      hide View, Exec, Step, FirstFlying, CancelEntry, Unsent, NoneExpired;
      ghost var v0 := View(Idle);
      pc := Idle;
      var next;
      next, trace := PollNextCancellation();
      match next {
        case Pending => r := Pending;
        case Ready(None) => r := Ready(None);
        case Ready(Some(Err(e))) => r := Ready(Some(Err(e)));
        case Ready(Some(Ok(id))) =>
          var result := StartSendCancel(id);
          match result {
            case Ok(_) =>
              ExecSnoc(v0, trace, CancelOk);
              trace := trace + [CancelOk];
              r := Ready(Some(Ok(())));
            case Err(cause) =>
              pc := Cancelling(id);
              r := Ready(Some(Err(WriteError(cause))));
          }
      }
    }

    // ---------------------------------------------------------------- pumping

    method ExpireOne() returns (id: Option<Id>, ghost e: Event)
      requires inFlightRequests.Valid() && terminalError.None?
      modifies this`sites, inFlightRequests, oneshots`txs
      ensures inFlightRequests.Valid()
      ensures id.Some? ==> Step(old(View(Idle)), e) == Some(View(Idle))
      ensures id.Some? ==> id.value in old(inFlightRequests.requestData)
                           && inFlightRequests.View() == old(inFlightRequests.View()).Remove(id.value)
      ensures id.None? ==> View(Idle) == old(View(Idle)) && NoneExpired(inFlightRequests.View(), now)
      ensures e.Expire?
    {
      ghost var key;
      id, key := inFlightRequests.PollExpired(now, Err(DeadlineExceeded), oneshots);
      e := Expire(key);
      if id.Some? {
        sites := sites[id.value := Done(Completed(Err(DeadlineExceeded)))];
      }
    }

    /** Completes one expired request, if there is one. */
    method ExpireRequest() returns (expired: bool, ghost e: Event)
      requires Valid() && terminalError.None?
      modifies this`sites, inFlightRequests, oneshots`txs
      ensures Valid()
      ensures expired ==> Step(old(View(Idle)), e) == Some(View(Idle)) && Load() < old(Load())
      ensures !expired ==>
                && View(Idle) == old(View(Idle)) && Load() == old(Load())
                && inFlightRequests.View() == old(inFlightRequests.View()) && NoneExpired(inFlightRequests.View(), now)
      ensures e.Expire?
    {
      hide Exec, Step, Unsent, NoneExpired;
      ghost var fly := inFlightRequests.requestData.Keys;
      var id;
      id, e := ExpireOne();
      expired := id.Some?;
      if expired {
        RemoveShrinks(old(inFlightRequests.requestData), id.value);
        UnsentStill(pendingRequests, fly, inFlightRequests.requestData.Keys);
      }
    }

    /** Nothing can be written now: what is left waits for the transport, for a slot or for a caller. */
    ghost predicate WriteIdle()
      reads this, inFlightRequests
    {
      && NoneExpired(inFlightRequests.View(), now)
      && (transport.canFlush ==> canceledRequests == [] && (pendingRequests == [] || AtCapacity()))
      && (transport.canFlush && transport.canClose ==> transport.flushed == |transport.written|)
    }

    /** No request and no cancellation is waiting, none can come, and the write half is closed. */
    ghost predicate WriteOver()
      reads this, inFlightRequests
    {
      && RequestsOver() && canceledRequests == [] && !channelOpen
      && NoneExpired(inFlightRequests.View(), now)
      && transport.flushed == |transport.written|
    }

    /** Closes the transport if both queues are over; otherwise flushes it. */
    method CloseOrFlush(over: bool) returns (r: Poll<Option<Result<(), ChannelError>>>)
      requires transport.Valid()
      modifies this`transport
      ensures transport.Valid() && old(transport).SameTraffic(transport) && View(Idle) == old(View(Idle))
      ensures match r
              case Ready(None) => over && transport.flushed == |transport.written|
              case Ready(Some(Err(e))) => if over then e.CloseError? else e.FlushError?
              case Ready(Some(Ok(_))) => false
              case Pending =>
                if over then !transport.canClose
                else !transport.canFlush || transport.flushed == |transport.written|
      ensures r.Ready? && r.value.Some? && r.value.value.Err? ==> !transport.Faultless()
    {
      if over {
        var (t, result) := transport.PollClose();
        transport := t;
        match result {
          case Ready(Ok(_)) => r := Ready(None);
          case Ready(Err(cause)) => r := Ready(Some(Err(CloseError(cause))));
          case Pending => r := Pending;
        }
      } else {
        var (t, result) := transport.PollFlush();
        transport := t;
        match result {
          case Ready(Ok(_)) => r := Pending;
          case Ready(Err(cause)) => r := Ready(Some(Err(FlushError(cause))));
          case Pending => r := Pending;
        }
      }
    }

    /** Writes one request or one cancellation; without a result, says which queues are over. */
    method WriteNext()
          returns (r: Option<Result<(), ChannelError>>, requestsOver: bool, cancelsOver: bool, ghost trace: seq<Event>,
          ghost pc: Pc)
      requires Valid() && terminalError.None?
      modifies this`transport, this`pendingRequests, this`canceledRequests, this`sites, this`wroteAt, this`cancelAt,
               inFlightRequests, oneshots`txs
      ensures Valid() && old(transport).SameEnv(transport)
      ensures Exec(old(View(Idle)), trace) == Some(View(pc))
      ensures pc == Idle || (pc.Cancelling? && r.Some? && r.value.Err? && r.value.error.WriteError?)
      ensures Load() <= old(Load())
      ensures match r
              case Some(Ok(_)) => Load() < old(Load())
              case Some(Err(e)) =>
                (e.ReadyError? || e.FlushError? || e.WriteError?) && (e.WriteError? ==> pc.Cancelling?)
              case None =>
                && (if requestsOver then RequestsOver()
                    else AtCapacity() || !transport.canFlush || pendingRequests == [])
                && (if cancelsOver then canceledRequests == [] && !channelOpen
                    else !transport.canFlush || canceledRequests == [])
      ensures transport.Faultless() ==> SendsOk(trace)
      ensures r.Some? && r.value.Err? ==> !transport.Faultless()
    {
      hide View, Exec, Step, Unsent, FirstOpen, Load;
      ghost var v0, es := View(Idle), [];
      requestsOver, cancelsOver, pc := false, false, Idle;
      var requests;
      requests, trace := PollWriteRequest();
      if requests.Ready? && requests.value.Some? {
        r := requests.value;
        return;
      }
      var cancels;
      cancels, es, pc := PollWriteCancel();
      ExecAppend(v0, trace, es);
      trace := trace + es;
      r := if cancels.Ready? then cancels.value else None;
      requestsOver, cancelsOver := requests.Ready?, cancels.Ready?;
    }

    /** Writes one request or one cancellation, or expires one request; otherwise flushes or closes. */
    method PumpWrite() returns (r: Poll<Option<Result<(), ChannelError>>>, ghost trace: seq<Event>, ghost pc: Pc)
      requires Valid() && terminalError.None?
      modifies this`transport, this`pendingRequests, this`canceledRequests, this`sites, this`wroteAt, this`cancelAt,
               inFlightRequests, oneshots`txs
      ensures Valid() && old(transport).SameEnv(transport)
      ensures Exec(old(View(Idle)), trace) == Some(View(pc))
      ensures pc == Idle
            || (pc.Cancelling? && r.Ready? && r.value.Some? && r.value.value.Err? && r.value.value.error.WriteError?)
      ensures Load() <= old(Load())
      ensures match r
              case Ready(Some(Ok(_))) => Load() < old(Load())
              case Ready(Some(Err(e))) => !e.ReadError? && (e.WriteError? ==> pc.Cancelling?)
              case Ready(None) => WriteOver()
              case Pending => WriteIdle()
      ensures transport.Faultless() ==> SendsOk(trace)
      ensures r.Ready? && r.value.Some? && r.value.value.Err? ==> !transport.Faultless()
    {
      hide View, Exec, Step, Unsent, NoneExpired, Load;
      ghost var v0, e := View(Idle), FinishOk;
      var wrote, requestsOver, cancelsOver;
      wrote, requestsOver, cancelsOver, trace, pc := WriteNext();
      if wrote.Some? {
        return Ready(wrote), trace, pc;
      }
      var expired;
      expired, e := ExpireRequest();
      if expired {
        ExecSnoc(v0, trace, e);
        return Ready(Some(Ok(()))), trace + [e], Idle;
      }
      r := CloseOrFlush(requestsOver && cancelsOver);
    }

    /** Hands a response to the caller that waits for it; any other response is ignored. */
    method Complete(response: Response) returns (found: bool)
      requires inFlightRequests.Valid()
      modifies this`sites, inFlightRequests, oneshots`txs
      ensures inFlightRequests.Valid() && found == (response.id in old(inFlightRequests.requestData))
      ensures inFlightRequests.View() == old(inFlightRequests.View()).Remove(response.id)
      ensures View(Idle) == DispatchProtocol.Complete(old(View(Idle)), response.id, ToOutcome(response.message))
    {
      found := inFlightRequests.CompleteRequest(response.id, ToOutcome(response.message), oneshots);
      if found {
        sites := sites[response.id := Done(Completed(ToOutcome(response.message)))];
      }
    }

    /** The response leaves the stream and goes to its caller. */
    method TakeResponse(response: Response)
      requires inFlightRequests.Valid() && terminalError.None?
      requires transport.inbound != [] && transport.inbound[0] == Message(response)
      modifies this`transport, this`sites, inFlightRequests, oneshots`txs
      ensures inFlightRequests.Valid() && transport == old(transport).PollNext().0
      ensures inFlightRequests.View() == old(inFlightRequests.View()).Remove(response.id)
      ensures Step(old(View(Idle)), Read(response)) == Some(View(Idle))
    {
      transport := transport.PollNext().0;
      ghost var v1 := View(Idle);
      assert v1 == old(View(Idle)).(received := old(View(Idle)).received + [response]);
      var found := Complete(response);
    }

    method ReadResponse(response: Response)
      requires Valid() && terminalError.None? && transport.inbound != [] && transport.inbound[0] == Message(response)
      modifies this`transport, this`sites, inFlightRequests, oneshots`txs
      ensures Valid() && Load() <= old(Load()) && transport == old(transport).PollNext().0
      ensures Step(old(View(Idle)), Read(response)) == Some(View(Idle))
    {
      hide View, Step, Unsent, InFlightRequests.Valid;
      ghost var fly := inFlightRequests.requestData.Keys;
      if response.id in inFlightRequests.requestData {
        RemoveShrinks(inFlightRequests.requestData, response.id);
      }
      TakeResponse(response);
      UnsentStill(pendingRequests, fly, inFlightRequests.requestData.Keys);
    }

    /** Reads one item from the transport. */
    method PumpRead() returns (r: Poll<Option<Result<(), ChannelError>>>, ghost trace: seq<Event>)
      requires Valid() && terminalError.None?
      modifies this`transport, this`sites, inFlightRequests, oneshots`txs
      ensures Valid() && Load() <= old(Load()) && transport == old(transport).PollNext().0
      ensures Exec(old(View(Idle)), trace) == Some(View(Idle))
      ensures match old(transport).PollNext().1
              case Ready(Some(Ok(_))) => r == Ready(Some(Ok(())))
              case Ready(Some(Err(cause))) => r == Ready(Some(Err(ReadError(cause))))
              case Ready(None) => r == Ready(None)
              case Pending => r == Pending
      ensures SendsOk(trace)
    {
      hide Exec, Step, Unsent, Load;
      ghost var v0 := View(Idle);
      ExecNothing(v0);
      trace := [];
      match transport.PollNext().1 {
        case Ready(Some(Ok(response))) =>
          ReadResponse(response);
          ExecSnoc(v0, trace, Read(response));
          trace := trace + [Read(response)];
          r := Ready(Some(Ok(())));
        case Ready(Some(Err(cause))) =>
          transport := transport.PollNext().0;
          r := Ready(Some(Err(ReadError(cause))));
        case Ready(None) => r := Ready(None);
        case Pending => r := Pending;
      }
    }

    /** Both halves wait for the environment. */
    ghost predicate Quiescent()
      reads this, inFlightRequests
    {
      transport.inbound == [] && !transport.ended && WriteIdle()
    }

    /** The peer hung up, or every handle is gone and every request was seen through. */
    ghost predicate Over()
      reads this, inFlightRequests
    {
      (transport.inbound == [] && transport.ended) || (WriteOver() && inFlightRequests.requestData == map[])
    }

    /** An error comes from the transport: the stream broke, or an operation of the sink failed. */
    ghost predicate Caused(e: ChannelError, inbound: seq<Item<Response>>)
      reads this`transport
    {
      if e.ReadError? then Broken(e.cause) in inbound else !transport.Faultless()
    }

    lemma OverIsIdle()
      requires WriteOver()
      ensures WriteIdle()
    {
    }

    /** One turn of the loop: the read half first, then the write half unless reading failed. */
    method Turn() returns (r: Result<(Progress, Progress), ChannelError>, ghost trace: seq<Event>, ghost pc: Pc)
      requires Valid() && terminalError.None?
      modifies this`transport, this`pendingRequests, this`canceledRequests, this`sites, this`wroteAt, this`cancelAt,
               inFlightRequests, oneshots`txs
      ensures Valid() && old(transport).SameSide(transport)
      ensures old(transport).Took(transport, if r.Err? then ReadCause(Some(r.error)) else None)
      ensures Exec(old(View(Idle)), trace) == Some(View(pc))
      ensures pc == Idle || (pc.Cancelling? && r.Err? && r.error.WriteError?)
      ensures Load() <= old(Load())
      ensures match r
              case Err(e) => e.WriteError? ==> pc.Cancelling?
              case Ok((read, write)) =>
                && (read.Moved? ==> |transport.inbound| < |old(transport.inbound)|)
                && (read.Ended? ==> transport.inbound == [] && transport.ended)
                && (read.Waiting? ==> transport.inbound == [] && !transport.ended)
                && (write.Moved? ==> Load() < old(Load()))
                && (write.Ended? ==> WriteOver())
                && (write.Waiting? ==> WriteIdle())
      ensures transport.Faultless() ==> SendsOk(trace)
      ensures r.Err? ==> Caused(r.error, old(transport.inbound))
    {
      hide View, Exec, Step, Unsent, NoneExpired, Load, WriteOver, WriteIdle, Transport.Took;
      ghost var v0, es, t0 := View(Idle), [], transport;
      pc := Idle;
      TookOne(t0);
      var read;
      read, trace := PumpRead();
      if read.Ready? && read.value.Some? && read.value.value.Err? {
        return Err(read.value.value.error), trace, Idle;
      }
      var write;
      ghost var t1 := transport;
      write, es, pc := PumpWrite();
      TookStill(t0, t1, transport, None);
      ExecAppend(v0, trace, es);
      trace := trace + es;
      if write.Ready? && write.value.Some? && write.value.value.Err? {
        return Err(write.value.value.error), trace, pc;
      }
      r := Ok((ProgressOf(read), ProgressOf(write)));
    }

    /** Reads and writes until neither half can do anything more. */
    method Run() returns (r: Poll<Result<(), ChannelError>>, ghost trace: seq<Event>, ghost pc: Pc)
      requires Valid() && terminalError.None?
      modifies this`transport, this`pendingRequests, this`canceledRequests, this`sites, this`wroteAt, this`cancelAt,
               inFlightRequests, oneshots`txs
      ensures Valid() && Env() == old(Env()) && old(transport).SameSide(transport)
      // the responses that have left the stream were received, in order; an error of reading is the stream's
      ensures old(transport).Took(transport, BrokenBy(r))
      ensures Exec(old(View(Idle)), trace) == Some(View(pc))
      ensures pc == Idle || (pc.Cancelling? && r.Ready? && r.value.Err? && r.value.error.WriteError?)
      ensures match r
              case Pending => Quiescent()
              case Ready(Ok(_)) => Over()
              case Ready(Err(e)) => e.WriteError? ==> pc.Cancelling?
      ensures transport.Faultless() ==> SendsOk(trace)
      ensures r.Ready? && r.value.Err? ==> Caused(r.value.error, old(transport.inbound))
    {
      hide View, Exec, Step, Unsent, NoneExpired, Load, WriteOver, WriteIdle, Transport.Took;
      ghost var v0 := View(Idle);
      ExecNothing(v0);
      TookNothing(transport, transport);
      trace, pc := [], Idle;
      while true
        invariant Valid() && Env() == old(Env()) && old(transport).SameSide(transport)
        invariant Exec(v0, trace) == Some(View(Idle)) && (transport.Faultless() ==> SendsOk(trace))
        invariant old(transport).Took(transport, None)
        decreases |transport.inbound| + Load()
      {
        var turn;
        ghost var es, t1 := [], transport;
        turn, es, pc := Turn();
        TookOn(old(transport), t1, transport, if turn.Err? then ReadCause(Some(turn.error)) else None);
        ExecAppend(v0, trace, es);
        trace := trace + es;
        match turn {
          case Err(e) =>
            if e.ReadError? {
              TookBreach(old(transport), transport, e.cause);
            }
            return Ready(Err(e)), trace, pc;
          case Ok((read, write)) =>
            if read.Ended? {
              return Ready(Ok(())), trace, Idle;
            }
            if write.Ended? {
              if inFlightRequests.requestData == map[] {
                return Ready(Ok(())), trace, Idle;
              }
              if read.Waiting? {
                OverIsIdle();
                return Pending, trace, Idle;
              }
            } else if read.Waiting? && write.Waiting? {
              return Pending, trace, Idle;
            }
        }
      }
    }

    // ---------------------------------------------------------------- shutting down

    /** Gives the error to every request in flight. */
    method FailInFlight(e: ChannelError) returns (ghost trace: seq<Event>)
      requires inFlightRequests.Valid() && terminalError == Some(e) && pendingClosed
      modifies this`sites, inFlightRequests, oneshots`txs
      ensures inFlightRequests.Valid() && inFlightRequests.View() == NoFlights()
      ensures Exec(old(View(Idle)), trace) == Some(View(Idle))
      ensures SendsOk(trace)
    {
      hide Exec, Step;
      trace := DrainFlights(View(Idle), Err(Channel(e)));
      sites := MarkAll(sites, inFlightRequests.requestData.Keys, Done(Completed(Err(Channel(e)))));
      inFlightRequests.CompleteAllRequests(Err(Channel(e)), oneshots);
    }

    /** Takes one request from the closed queue; its caller gets the error, if it is still there. */
    method FailPending(e: ChannelError)
      requires terminalError == Some(e) && pendingClosed && pendingRequests != []
      modifies this`pendingRequests, this`sites, oneshots`txs
      ensures pendingRequests == old(pendingRequests)[1..]
      ensures Step(old(View(Idle)), DrainRecv) == Some(View(Idle))
    {
      hide Exec, Deliver, Discard;
      var request := pendingRequests[0];
      pendingRequests := pendingRequests[1..];
      if request.id in oneshots.closed {
        oneshots.DropSender(request.id);
        sites := sites[request.id := Done(Aborted)];
      } else {
        oneshots.Send(request.id, Err(Channel(e)));
        sites := sites[request.id := Done(Completed(Err(Channel(e))))];
      }
    }

    method ClosePendingRequests()
      requires terminalError.Some?
      modifies this`pendingClosed
      ensures pendingClosed && Step(old(View(Idle)), ClosePending) == Some(View(Idle))
    {
      pendingClosed := true;
    }

    /** Closes the request queue and gives the error to every request that is in flight or queued. */
    method ShutDownWithTerminalError(e: ChannelError) returns (r: Poll<()>, ghost trace: seq<Event>)
      requires Valid() && terminalError == Some(e)
      modifies this`pendingRequests, this`pendingClosed, this`sites, inFlightRequests, oneshots`txs
      ensures Valid() && Exec(old(View(Idle)), trace) == Some(View(Idle))
      ensures pendingClosed && pendingRequests == [] && inFlightRequests.View() == NoFlights()
      ensures r.Ready? <==> RequestsOver()
      ensures SendsOk(trace)
    {
      hide Exec, Step;
      ghost var v0 := View(Idle);
      ExecNothing(v0);
      ClosePendingRequests();
      ExecSnoc(v0, [], ClosePending);
      trace := [] + [ClosePending];
      ghost var es := FailInFlight(e);
      ExecAppend(v0, trace, es);
      trace := trace + es;
      while pendingRequests != []
        invariant pendingClosed && inFlightRequests.View() == NoFlights()
        invariant Exec(v0, trace) == Some(View(Idle)) && SendsOk(trace)
        decreases |pendingRequests|
      {
        FailPending(e);
        ExecSnoc(v0, trace, DrainRecv);
        trace := trace + [DrainRecv];
      }
      r := if RequestsOver() then Ready(()) else Pending;
    }

    /** Records the error that ended the run. */
    method Fail(e: ChannelError, ghost pc: Pc) returns (ghost event: Event)
      requires terminalError.None? && (if e.WriteError? then pc.Cancelling? else pc == Idle)
      modifies this`terminalError
      ensures terminalError == Some(e) && Step(old(View(pc)), event) == Some(View(Idle))
      ensures !event.SendFail?
    {
      terminalError := Some(e);
      event := if e.WriteError? then CancelFail(e.cause) else Fault(e);
    }

    lemma FinishStep()
      requires terminalError.None?
      ensures Step(View(Idle), FinishOk) == Some(View(Idle).(life := Finished(Ok(()))))
    {
    }

    lemma FinishErrStep(e: ChannelError)
      requires terminalError == Some(e) && pendingClosed && RequestsOver() && inFlightRequests.View() == NoFlights()
      ensures Step(View(Idle), FinishErr) == Some(View(Idle).(life := Finished(Err(e))))
    {
    }

    /** Once the run has failed: give out the error, and finish when no caller can come any more. */
    method PollFailed(e: ChannelError) returns (r: Poll<Result<(), ChannelError>>, ghost trace: seq<Event>)
      requires Valid() && terminalError == Some(e)
      modifies this`pendingRequests, this`pendingClosed, this`sites, inFlightRequests, oneshots`txs
      ensures Valid() && Env() == old(Env())
      ensures pendingClosed && pendingRequests == [] && inFlightRequests.View() == NoFlights()
      ensures r == if permits == {} then Ready(Err(e)) else Pending
      ensures Exec(old(View(Idle)), trace) == Some(Polled(r))
      ensures SendsOk(trace)
    {
      hide View, Exec, Step, Unsent;
      ghost var v0 := View(Idle);
      var done;
      done, trace := ShutDownWithTerminalError(e);
      if done.Pending? {
        return Pending, trace;
      }
      FinishErrStep(e);
      ExecSnoc(v0, trace, FinishErr);
      r, trace := Ready(Err(e)), trace + [FinishErr];
    }

    /** The state after a poll with result `r`. */
    ghost function Polled(r: Poll<Result<(), ChannelError>>): State
      reads this, inFlightRequests, oneshots
    {
      if r.Ready? then View(Idle).(life := Finished(r.value)) else View(Idle)
    }

    /** While the transport has not failed. */
    method PollRunning() returns (r: Poll<Result<(), ChannelError>>, ghost trace: seq<Event>)
      requires Valid() && terminalError.None?
      modifies this`transport, this`pendingRequests, this`canceledRequests, this`sites, this`wroteAt, this`cancelAt,
               this`terminalError, inFlightRequests, oneshots`txs
      ensures Valid() && Env() == old(Env()) && old(transport).SameSide(transport)
      ensures old(transport).Took(transport, ReadCause(terminalError))
      ensures Exec(old(View(Idle)), trace) == Some(if terminalError.Some? then View(Idle) else Polled(r))
      ensures terminalError.None? ==> if r.Pending? then Quiescent() else r.value.Ok? && Over()
      ensures transport.Faultless() ==> SendsOk(trace)
      ensures terminalError.Some? ==> Caused(terminalError.value, old(transport.inbound))
    {
      hide View, Exec, Step, Unsent, Quiescent, Over, Transport.Took;
      ghost var v0, pc := View(Idle), Idle;
      r, trace, pc := Run();
      match r {
        case Pending =>
        case Ready(Ok(_)) =>
          FinishStep();
          ExecSnoc(v0, trace, FinishOk);
          r, trace := Ready(Ok(())), trace + [FinishOk];
        case Ready(Err(e)) =>
          ghost var event := Fail(e, pc);
          ExecSnoc(v0, trace, event);
          trace := trace + [event];
      }
    }

    /** Runs until the transport fails; from then on only gives out the error. */
    method Poll() returns (r: Poll<Result<(), ChannelError>>, ghost trace: seq<Event>)
      requires Valid()
      modifies this`transport, this`pendingRequests, this`pendingClosed, this`canceledRequests, this`sites,
               this`wroteAt, this`cancelAt, this`terminalError, inFlightRequests, oneshots`txs
      ensures Valid() && Env() == old(Env()) && old(transport).SameSide(transport)
      ensures old(transport).Took(transport, if old(terminalError).None? then ReadCause(terminalError) else None)
      ensures Exec(old(View(Idle)), trace) == Some(Polled(r))
      ensures match terminalError
              case None => pendingClosed == old(pendingClosed)
                    && (if r.Pending? then Quiescent() else r.value.Ok? && Over())
              case Some(e) =>
                && pendingClosed && pendingRequests == [] && inFlightRequests.View() == NoFlights()
                && r == if permits == {} then Ready(Err(e)) else Pending
      ensures old(terminalError).Some? ==> terminalError == old(terminalError) && transport == old(transport)
      ensures transport.Faultless() ==> SendsOk(trace)
      ensures old(terminalError).None? && terminalError.Some? ==> Caused(terminalError.value, old(transport.inbound))
    {
      hide View, Exec, Step, Valid, Env, Quiescent, Over, Polled, Transport.Took;
      ghost var v0, es := View(Idle), [];
      ExecNothing(v0);
      TookNothing(transport, transport);
      trace := [];
      while terminalError.None?
        invariant Valid() && Env() == old(Env()) && Exec(v0, trace) == Some(View(Idle))
        invariant pendingClosed == old(pendingClosed) && (transport.Faultless() ==> SendsOk(trace))
        invariant old(terminalError).None? && terminalError.Some? ==>
                    Caused(terminalError.value, old(transport.inbound))
        invariant terminalError.None? ==> transport == old(transport) && trace == []
        invariant old(transport).SameSide(transport)
        invariant old(transport).Took(transport, if old(terminalError).None? then ReadCause(terminalError) else None)
        invariant old(terminalError).Some? ==> terminalError == old(terminalError) && transport == old(transport)
        decreases terminalError.None?
      {
        r, es := PollRunning();
        ExecAppend(v0, trace, es);
        trace := trace + es;
        if terminalError.None? {
          return;
        }
      }
      r, es := PollFailed(terminalError.value);
      ExecAppend(v0, trace, es);
      trace := trace + es;
    }
  }
}
