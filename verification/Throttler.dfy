/** `MaxRequests`: a channel that turns requests away while too many are in flight. */
module Throttler {
  import opened Types
  import opened Flights
  import opened ServerProtocol
  import opened ServerInFlight
  import opened Transports
  import opened ServerChannel
  import opened Discipline

  function Rejection(h: Handle, r: Request): Reply {
    Reply(h, Response(r.id, Err(THROTTLE_ERROR)))
  }

  /** One rejection for each of the given handlers, of which the first has number `base`. */
  function Rejections(hs: seq<Handler>, base: nat): seq<Reply> {
    seq(|hs|, k requires 0 <= k < |hs| => Rejection(base + k, hs[k].req))
  }

  ghost predicate AllThrottled(hs: seq<Handler>) {
    forall k :: 0 <= k < |hs| ==> hs[k].phase.Throttled?
  }

  lemma OneMoreRejection(hs: seq<Handler>, base: nat, h: Handler)
    requires AllThrottled(hs) && h.phase.Throttled?
    ensures AllThrottled(hs + [h])
    ensures Rejections(hs + [h], base) == Rejections(hs, base) + [Rejection(base + |hs|, h.req)]
  {
  }

  /** Since `before`, every new handler was turned away and one rejection was written for each. */
  ghost predicate Rejected(hs: seq<Handler>, before: seq<Handler>, written: seq<Reply>, wrote: seq<Reply>) {
    && |before| <= |hs| && hs[..|before|] == before
    && AllThrottled(hs[|before|..])
    && written == wrote + Rejections(hs[|before|..], |before|)
  }

  lemma NoneRejected(hs: seq<Handler>, written: seq<Reply>)
    ensures Rejected(hs, hs, written, written)
  {
    assert Rejections(hs[|hs|..], |hs|) == [];
  }

  lemma RejectedMore(hs: seq<Handler>, before: seq<Handler>, written: seq<Reply>, wrote: seq<Reply>, h: Handler)
    requires Rejected(hs, before, written, wrote) && h.phase.Throttled?
    ensures Rejected(hs + [h], before, written + [Rejection(|hs|, h.req)], wrote)
  {
    assert (hs + [h])[|before|..] == hs[|before|..] + [h];
    OneMoreRejection(hs[|before|..], |before|, h);
  }

  /** What the throttler saw when it last looked: was the sink full, what waited, how much had left the sink. */
  datatype Look = Look(blocked: bool, inbound: seq<Item<ClientMessage>>, flushed: nat)

  /** The poll reports that a write failed. */
  predicate FailedWrite(r: StreamPoll) {
    r.Ready? && r.value.Some? && r.value.value.Err? && r.value.value.error.WriteError?
  }

  /** What the stream owes after a poll of a channel: a request to hand out, or nothing. */
  predicate Owes(limit: Option<nat>, duty: Duty, r: StreamPoll) {
    if YieldedBy(r).Some?
    then duty.Holding? && duty.h == YieldedBy(r).value.handle && !Full(limit, duty.seen)
    else duty.Free?
  }

  /** The contract of a limited poll: what is in flight does not grow beyond the limit. */
  predicate PollWithin(before: nat, after: nat, limit: nat) {
    after <= limit || after <= before
  }

  class MaxRequests {
    const inner: BaseChannel
    const maxInFlight: nat

    // history
    ghost var look: Look

    constructor (inner: BaseChannel, max: nat)
      ensures this.inner == inner && maxInFlight == max
    {
      this.inner, this.maxInFlight := inner, max;
      look := Look(false, [], 0);
    }

    predicate AtLimit()
      reads inner.inFlightRequests
    {
      inner.InFlight() >= maxInFlight
    }

    // ---------------------------------------------------------------- the meaning of a poll

    /**
     Who was turned away: every request read since `before` except the one yielded, each with one
     rejection written, except that the write of the last one may have failed.
     */
    ghost predicate Accounted(r: StreamPoll, before: seq<Handler>, wrote: seq<Reply>)
      reads inner, inner.inFlightRequests
    {
      var n := |inner.handlers|;
      match r
      case Ready(Some(Ok(t))) =>
        && 0 < n && inner.YieldedFrom(t, inner.handlers[..n - 1])
        && Rejected(inner.handlers[..n - 1], before, inner.transport.written, wrote)
      case Ready(Some(Err(WriteError(_)))) =>
        && 0 < n && |before| < n && inner.handlers[n - 1].phase.Throttled?
        && Rejected(inner.handlers[..n - 1], before, inner.transport.written, wrote)
      case _ => Rejected(inner.handlers, before, inner.transport.written, wrote)
    }

    /**
     A poll that waits has nothing to read, unless it is at its limit and found the sink full: then,
     and only then, it has not read what was waiting.
     */
    ghost predicate Resting(r: StreamPoll)
      reads this, inner, inner.inFlightRequests
    {
      match r
      case Ready(Some(_)) => true
      case Ready(None) =>
        && !look.blocked && (AtLimit() ==> inner.transport.HasRoom())
        && inner.ReadIdle() && inner.transport.ended && inner.inFlightRequests.requestData == map[]
      case Pending =>
        && (look.blocked <==> AtLimit() && !inner.transport.HasRoom())
        && if look.blocked then inner.transport.inbound == look.inbound
           else inner.ReadIdle() && !(inner.transport.ended && inner.inFlightRequests.requestData == map[])
    }

    /** An error that is not of reading comes from a failed operation of the sink. */
    ghost predicate Caused(r: StreamPoll)
      reads inner
    {
      r.Ready? && r.value.Some? && r.value.value.Err? && !r.value.value.error.ReadError? ==>
        !inner.transport.Faultless()
    }

    /** The request that waits first and repeats no tracked id, if there is one. */
    ghost function First(): Option<Request>
      reads inner`transport, inner.inFlightRequests
    {
      NewFirst(inner.transport.inbound, inner.inFlightRequests.requestData.Keys)
    }

    /** The first new handler since `before`, if any, was started for `first` and turned away. */
    ghost predicate FirstRejected(first: Option<Request>, before: seq<Handler>)
      reads inner
    {
      first.Some? && |before| < |inner.handlers| ==>
        inner.handlers[|before|].req == first.value && inner.handlers[|before|].phase.Throttled?
    }

    lemma AccountYield(t: TrackedRequest, hs: seq<Handler>, before: seq<Handler>, wrote: seq<Reply>)
      requires inner.YieldedFrom(t, hs) && Rejected(hs, before, inner.transport.written, wrote)
      ensures Accounted(Ready(Some(Ok(t))), before, wrote)
    {
      assert inner.handlers[..|inner.handlers| - 1] == hs;
    }

    lemma AccountLost(e: ChannelError, hs: seq<Handler>, h: Handler, before: seq<Handler>, wrote: seq<Reply>)
      requires inner.handlers == hs + [h] && h.phase.Throttled? && Rejected(hs, before, inner.transport.written, wrote)
      requires e.WriteError?
      ensures Accounted(Ready(Some(Err(e))), before, wrote)
    {
      assert inner.handlers[..|inner.handlers| - 1] == hs;
    }

    lemma AccountRest(r: StreamPoll, before: seq<Handler>, wrote: seq<Reply>)
      requires Rejected(inner.handlers, before, inner.transport.written, wrote)
      requires r.Ready? && r.value.Some? ==> r.value.value.Err? && !r.value.value.error.WriteError?
      ensures Accounted(r, before, wrote)
    {
    }

    // ---------------------------------------------------------------- polling

    /** Answers a request that was just yielded with an error, which also stops tracking it. */
    method Reject(t: TrackedRequest, ghost before: seq<Handler>, ghost q: seq<Reply>)
      returns (r: Result<(), ChannelError>)
      requires inner.Valid() && inner.YieldedFrom(t, before) && inner.transport.HasRoom()
      modifies inner`transport, inner`handlers, inner`acts, inner.inFlightRequests
      ensures inner.Valid() && old(inner.transport).SameEnv(inner.transport)
      ensures inner.transport.flushed == old(inner.transport.flushed)
      ensures Step(old(inner.View(q)), Throttle(t.handle, r.Ok?)) == Some(inner.View(q))
      ensures inner.InFlight() == old(inner.InFlight()) - 1
      ensures t.handle == |before| && inner.transport.read != []
      ensures inner.handlers == before + [Handler(t.request, |inner.transport.read| - 1, Throttled)]
      ensures r.Err? ==> r.error.WriteError? && !inner.transport.Faultless()
      ensures inner.transport.written
              == if r.Ok? then old(inner.transport.written) + [Rejection(t.handle, t.request)]
                 else old(inner.transport.written)
    {
      hide Exec, Transport.Faultless;
      RemoveShrinks(inner.inFlightRequests.requestData, t.request.id);
      inner.handlers := inner.handlers[t.handle := inner.handlers[t.handle].(phase := Throttled)];
      r := inner.StartSend(Rejection(t.handle, t.request), q);
    }

    /** `Reject`, as part of the account and of the stream's duties. */
    method RejectNext(t: TrackedRequest, ghost duty: Duty, ghost hs: seq<Handler>, ghost before: seq<Handler>,
                      ghost wrote: seq<Reply>, ghost q: seq<Reply>)
      returns (r: Result<(), ChannelError>, ghost e: Event)
      requires inner.Valid() && inner.YieldedFrom(t, hs) && Rejected(hs, before, inner.transport.written, wrote)
      requires inner.transport.HasRoom() && duty.Checked? && maxInFlight <= duty.count
      modifies inner`transport, inner`handlers, inner`acts, inner.inFlightRequests
      ensures inner.Valid() && old(inner.transport).SameEnv(inner.transport)
      ensures inner.transport.flushed == old(inner.transport.flushed)
      ensures LeadsUnless(r.Err?, Some(maxInFlight), old(inner.View(q)), old(inner.Owed(duty, Some(t))), [e],
                          inner.View(q), Free)
      ensures inner.InFlight() == old(inner.InFlight()) - 1 && |inner.handlers| == |hs| + 1 && hs <= inner.handlers
      ensures FirstRejected(Some(t.request), hs)
      ensures match r
              case Ok(_) => Rejected(inner.handlers, before, inner.transport.written, wrote)
              case Err(e) => && Accounted(Ready(Some(Err(e))), before, wrote)
                             && !inner.transport.Faultless() && e.WriteError?
    {
      hide BaseChannel.View, BaseChannel.Valid, BaseChannel.YieldedFrom, BaseChannel.InFlight;
      hide Step, LeadsUnless, Rejected, Accounted;
      ghost var v0, w := inner.View(q), inner.transport.written;
      TrackedIsInFlight(t, hs);
      ghost var owed := inner.Owed(duty, Some(t));
      r := Reject(t, hs, q);
      e := Throttle(t.handle, r.Ok?);
      UnlessOne(Some(maxInFlight), v0, owed, e);
      ghost var h := Handler(t.request, |inner.transport.read| - 1, Throttled);
      if r.Ok? {
        RejectedMore(hs, before, w, wrote, h);
      } else {
        AccountLost(r.error, hs, h, before, wrote);
      }
    }

    lemma TrackedIsInFlight(t: TrackedRequest, hs: seq<Handler>)
      requires inner.YieldedFrom(t, hs)
      ensures 0 < inner.InFlight() && hs <= inner.handlers
    {
    }

    /** What a turn at the limit leaves behind; None if polling goes on. */
    ghost predicate Turned(r: Option<StreamPoll>, hs: seq<Handler>, before: seq<Handler>, wrote: seq<Reply>)
      reads this, inner, inner.inFlightRequests
    {
      match r
      case None => |inner.handlers| == |hs| + 1 && Rejected(inner.handlers, before, inner.transport.written, wrote)
      case Some(p) =>
        && YieldedBy(p).None? && Accounted(p, before, wrote)
        && Resting(p) && Caused(p)
    }

    /** Reads one request and turns it away. */
    method TakeAndReject(ghost duty: Duty, ghost before: seq<Handler>, ghost wrote: seq<Reply>, ghost q: seq<Reply>)
      returns (r: Option<StreamPoll>, ghost trace: seq<Event>)
      requires inner.Valid() && inner.transport.HasRoom() && !look.blocked
      requires Rejected(inner.handlers, before, inner.transport.written, wrote)
      requires duty.Checked? && maxInFlight <= duty.count
      modifies inner`transport, inner`canceledRequests, inner`started, inner`handlers, inner`acts,
               inner.inFlightRequests, inner.aborts
      ensures inner.Valid() && old(inner.transport).SameSide(inner.transport)
      ensures inner.transport.flushed == old(inner.transport.flushed)
      ensures Suffix(inner.canceledRequests, old(inner.canceledRequests))
      ensures LeadsUnless(r.Some? && FailedWrite(r.value), Some(maxInFlight), old(inner.View(q)), duty, trace,
                          inner.View(q), Free)
      ensures inner.InFlight() <= old(inner.InFlight()) && Turned(r, old(inner.handlers), before, wrote)
      ensures r.None? ==> |inner.transport.inbound| < |old(inner.transport).inbound|
      ensures old(inner.transport).Took(inner.transport, if r.Some? then BrokenBy(r.value) else None)
      ensures old(inner.handlers) <= inner.handlers && FirstRejected(old(First()), old(inner.handlers))
      ensures old(First()).Some? ==> |old(inner.handlers)| < |inner.handlers|
    {
      hide BaseChannel.View, LeadsUnless, Rejected, Accounted, BaseChannel.YieldedFrom,
           BaseChannel.ReadIdle, Step, NewFirst, Transport.Took, CleansFirst;
      ghost var v0, hs, t0 := inner.View(q), inner.handlers, inner.transport;
      var next;
      next, trace := inner.PollNext(Some(maxInFlight), duty, q);
      ghost var t1 := inner.transport;
      ghost var v1, owed := inner.View(q), inner.Owed(duty, YieldedBy(next));
      if YieldedBy(next).None? {
        AccountRest(next, before, wrote);
        LeaveStep(q);
        UnlessOne(Some(maxInFlight), v1, duty, Leave);
        UnlessOn(Some(maxInFlight), false, v0, duty, trace, v1, duty, false, [Leave], v1, Free);
        return Some(next), trace + [Leave];
      }
      var sent;
      ghost var e;
      sent, e := RejectNext(next.value.value.value, duty, hs, before, wrote, q);
      UnlessOn(Some(maxInFlight), false, v0, duty, trace, v1, owed, sent.Err?, [e], inner.View(q), Free);
      trace := trace + [e];
      TookStill(t0, t1, inner.transport, None);
      r := match sent case Ok(_) => None case Err(error) => Some(Ready(Some(Err(error))));
    }

    lemma LeaveStep(q: seq<Reply>)
      ensures Step(inner.View(q), Leave) == Some(inner.View(q))
      ensures Step(inner.View(q), Check) == Some(inner.View(q)) && |inner.View(q).flights.slots| == inner.InFlight()
    {
    }

    method LookAtSink(ghost q: seq<Reply>) returns (ready: Poll<Result<(), ChannelError>>)
      requires inner.Valid()
      modifies this`look, inner`transport
      ensures inner.Valid() && inner.View(q) == old(inner.View(q))
      ensures old(inner.transport).SameTraffic(inner.transport)
      ensures inner.transport.flushed == old(inner.transport.flushed)
      ensures look == Look(ready.Pending?, inner.transport.inbound, inner.transport.flushed)
      ensures match ready
              case Ready(Ok(_)) => inner.transport.HasRoom()
              case Ready(Err(e)) => e.ReadyError? && !inner.transport.Faultless()
              case Pending => !inner.transport.HasRoom()
    {
      hide BaseChannel.View;
      ready := inner.PollReady(q);
      look := Look(ready.Pending?, inner.transport.inbound, inner.transport.flushed);
    }

    /** The throttler compares what is in flight with its limit. */
    ghost method CheckLimit(q: seq<Reply>) returns (duty: Duty)
      ensures duty == Checked(inner.InFlight())
      ensures LeadsUnless(false, Some(maxInFlight), inner.View(q), Free, [Check], inner.View(q), duty)
    {
      hide BaseChannel.View, LeadsUnless, Step;
      duty := Checked(inner.InFlight());
      LeaveStep(q);
      UnlessOne(Some(maxInFlight), inner.View(q), Free, Check);
    }

    /** At the limit: turns one request away, if the sink has room for the rejection. */
    method TurnAway(ghost before: seq<Handler>, ghost wrote: seq<Reply>, ghost q: seq<Reply>)
      returns (r: Option<StreamPoll>, ghost trace: seq<Event>)
      requires inner.Valid() && AtLimit() && Rejected(inner.handlers, before, inner.transport.written, wrote)
      modifies this`look, inner`transport, inner`canceledRequests, inner`started, inner`handlers, inner`acts,
               inner.inFlightRequests, inner.aborts
      ensures inner.Valid() && old(inner.transport).SameSide(inner.transport)
      ensures look.flushed == inner.transport.flushed == old(inner.transport.flushed)
      ensures Suffix(inner.canceledRequests, old(inner.canceledRequests))
      ensures LeadsUnless(r.Some? && FailedWrite(r.value), Some(maxInFlight), old(inner.View(q)), Free, trace,
                          inner.View(q), Free)
      ensures inner.InFlight() <= old(inner.InFlight()) && Turned(r, old(inner.handlers), before, wrote)
      ensures r.None? ==> |inner.transport.inbound| < |old(inner.transport).inbound|
      ensures !old(inner.transport).HasRoom() ==> r.Some? && Stood(r.value, old(inner.transport))
      ensures old(inner.transport).Took(inner.transport, if r.Some? then BrokenBy(r.value) else None)
      ensures old(inner.handlers) <= inner.handlers && FirstRejected(old(First()), old(inner.handlers))
      ensures old(First().Some? && inner.transport.HasRoom()) && inner.transport.Faultless() ==>
                |old(inner.handlers)| < |inner.handlers|
    {
      hide BaseChannel.View, LeadsUnless, Step, Rejected, Accounted, BaseChannel.ReadIdle, Suffix, NewFirst,
           Transport.Took;
      ghost var v0, t0 := inner.View(q), inner.transport;
      SameSuffix(inner.canceledRequests);
      ghost var duty := CheckLimit(q);
      var ready := LookAtSink(q);
      ghost var t1 := inner.transport;
      TookNothing(t0, t1);
      if ready.Pending? || ready.value.Err? {
        var p := if ready.Pending? then Pending else Ready(Some(Err(ready.value.error)));
        AccountRest(p, before, wrote);
        LeaveStep(q);
        UnlessOne(Some(maxInFlight), v0, duty, Leave);
        UnlessOn(Some(maxInFlight), false, v0, Free, [Check], v0, duty, false, [Leave], v0, Free);
        return Some(p), [Check] + [Leave];
      }
      ghost var es;
      r, es := TakeAndReject(duty, before, wrote, q);
      TookOn(t0, t1, inner.transport, if r.Some? then BrokenBy(r.value) else None);
      UnlessOn(Some(maxInFlight), false, v0, Free, [Check], v0, duty, r.Some? && FailedWrite(r.value), es,
               inner.View(q), Free);
      trace := [Check] + es;
    }

    /** Below the limit: the channel's own poll. */
    method Forward(ghost before: seq<Handler>, ghost wrote: seq<Reply>, ghost q: seq<Reply>)
      returns (r: StreamPoll, ghost trace: seq<Event>, ghost duty: Duty)
      requires inner.Valid() && !AtLimit() && Rejected(inner.handlers, before, inner.transport.written, wrote)
      requires |before| <= |inner.handlers|
      modifies this`look, inner`transport, inner`canceledRequests, inner`started, inner`handlers, inner`acts,
               inner.inFlightRequests, inner.aborts
      ensures inner.Valid() && OnlyRead(old(inner.transport), inner.transport)
      ensures look.flushed == inner.transport.flushed
      ensures Suffix(inner.canceledRequests, old(inner.canceledRequests))
      ensures LeadsUnless(false, Some(maxInFlight), old(inner.View(q)), Free, trace, inner.View(q), duty)
      ensures Owes(Some(maxInFlight), duty, r)
      ensures Accounted(r, before, wrote) && Resting(r) && Caused(r) && !FailedWrite(r)
      ensures inner.Yields(Some(r), old(First())) && old(inner.handlers) <= inner.handlers
      ensures old(inner.transport).Took(inner.transport, BrokenBy(r))
      ensures inner.InFlight() <= maxInFlight
    {
      hide BaseChannel.View, LeadsUnless, Step, Rejected, Accounted, BaseChannel.YieldedFrom,
           BaseChannel.ReadIdle, Suffix, NewFirst, Transport.Took, CleansFirst;
      ghost var v0, hs, es := inner.View(q), inner.handlers, [];
      ghost var checked := CheckLimit(q);
      look := Look(false, inner.transport.inbound, inner.transport.flushed);
      r, es := inner.PollNext(Some(maxInFlight), checked, q);
      ghost var v1 := inner.View(q);
      duty := inner.Owed(checked, YieldedBy(r));
      UnlessOn(Some(maxInFlight), false, v0, Free, [Check], v0, checked, false, es, v1, duty);
      trace := [Check] + es;
      if YieldedBy(r).Some? {
        TrackedIsInFlight(YieldedBy(r).value, hs);
        AccountYield(YieldedBy(r).value, hs, before, wrote);
      } else {
        AccountRest(r, before, wrote);
        LeaveStep(q);
        UnlessOne(Some(maxInFlight), v1, checked, Leave);
        UnlessOn(Some(maxInFlight), false, v0, Free, trace, v1, checked, false, [Leave], v1, Free);
        trace, duty := trace + [Leave], Free;
      }
    }

    /** Nothing was read or written, and unless the sink failed the poll waits. */
    ghost predicate Stood(r: StreamPoll, t: Transport<Reply, ClientMessage>)
      reads inner
    {
      && t.SameTraffic(inner.transport) && inner.transport.flushed == t.flushed
      && (r.Pending? || !inner.transport.Faultless())
    }

    /** Yields the next request if the limit allows; until then turns every request away. */
    method PollNext(ghost q: seq<Reply>) returns (r: StreamPoll, ghost trace: seq<Event>, ghost duty: Duty)
      requires inner.Valid()
      modifies this`look, inner`transport, inner`canceledRequests, inner`started, inner`handlers, inner`acts,
               inner.inFlightRequests, inner.aborts
      ensures inner.Valid() && old(inner.transport).SameSide(inner.transport)
      ensures look.flushed == inner.transport.flushed == old(inner.transport.flushed)
      ensures LeadsUnless(FailedWrite(r), Some(maxInFlight), old(inner.View(q)), Free, trace, inner.View(q), duty)
      ensures Owes(Some(maxInFlight), duty, r)
      ensures Accounted(r, old(inner.handlers), old(inner.transport.written)) && Resting(r) && Caused(r)
      ensures old(inner.transport).Took(inner.transport, BrokenBy(r))
      // a new request that waits first is yielded below the limit, and turned away at the limit if the sink has room
      ensures !old(AtLimit()) ==> inner.Yields(Some(r), old(First()))
      ensures old(AtLimit() && First().Some? && inner.transport.HasRoom()) && inner.transport.Faultless() ==>
                |old(inner.handlers)| < |inner.handlers|
      ensures old(AtLimit()) ==> FirstRejected(old(First()), old(inner.handlers))
      ensures Suffix(inner.canceledRequests, old(inner.canceledRequests))
      // what is in flight never grows beyond the limit
      ensures PollWithin(old(inner.InFlight()), inner.InFlight(), maxInFlight)
      ensures YieldedBy(r).Some? ==> inner.InFlight() <= maxInFlight
      // at the limit with a full sink, a poll does nothing
      ensures old(AtLimit() && !inner.transport.HasRoom()) ==> Stood(r, old(inner.transport))
    {
      hide BaseChannel.View, LeadsUnless, Rejected, Accounted, BaseChannel.YieldedFrom,
           BaseChannel.ReadIdle, NewFirst, Transport.Took, Suffix;
      ghost var v0, before, wrote := inner.View(q), inner.handlers, inner.transport.written;
      UnlessNowhere(Some(maxInFlight), v0, Free);
      NoneRejected(before, wrote);
      SameSuffix(inner.canceledRequests);
      TookNothing(inner.transport, inner.transport);
      trace, duty := [], Free;
      ghost var es;
      while AtLimit()
        invariant inner.Valid() && old(inner.transport).SameSide(inner.transport)
        invariant inner.transport.flushed == old(inner.transport.flushed)
        invariant Suffix(inner.canceledRequests, old(inner.canceledRequests))
        invariant LeadsUnless(false, Some(maxInFlight), v0, Free, trace, inner.View(q), Free)
        invariant inner.InFlight() <= old(inner.InFlight())
        invariant Rejected(inner.handlers, before, inner.transport.written, wrote)
        invariant before <= inner.handlers && old(inner.transport).Took(inner.transport, None)
        invariant FirstRejected(old(First()), before)
        invariant if |before| < |inner.handlers| then old(AtLimit() && inner.transport.HasRoom())
                  else AtLimit() == old(AtLimit()) && First() == old(First()) && inner.transport == old(inner.transport)
        decreases |inner.transport.inbound|
      {
        ghost var v1, t1, c1 := inner.View(q), inner.transport, inner.canceledRequests;
        var stop;
        stop, es := TurnAway(before, wrote, q);
        UnlessOn(Some(maxInFlight), false, v0, Free, trace, v1, Free, stop.Some? && FailedWrite(stop.value), es,
                 inner.View(q), Free);
        SuffixOfSuffix(inner.canceledRequests, c1, old(inner.canceledRequests));
        TookOn(old(inner.transport), t1, inner.transport, if stop.Some? then BrokenBy(stop.value) else None);
        trace := trace + es;
        if stop.Some? {
          return stop.value, trace, Free;
        }
      }
      ghost var v1, t1, c1 := inner.View(q), inner.transport, inner.canceledRequests;
      r, es, duty := Forward(before, wrote, q);
      SuffixOfSuffix(inner.canceledRequests, c1, old(inner.canceledRequests));
      TookOn(old(inner.transport), t1, inner.transport, BrokenBy(r));
      UnlessOn(Some(maxInFlight), false, v0, Free, trace, v1, Free, false, es, inner.View(q), duty);
      trace := trace + es;
    }
  }
}
