/** `Requests`: the stream of request handlers, which also writes the responses they produce. */
module RequestStream {
  import opened Types
  import opened Flights
  import opened ServerProtocol
  import opened ServerInFlight
  import opened Discipline
  import opened Transports
  import opened ServerChannel
  import opened Throttler

  /** Handlers that were there are unchanged; of the new ones all but the one held were turned away. */
  ghost predicate Custody(before: seq<Handler>, hs: seq<Handler>, held: Option<Handle>) {
    && before <= hs && (held.Some? ==> |before| <= held.value < |hs|)
    && forall h :: |before| <= h < |hs| && held != Some(h) ==> hs[h].phase.Throttled?
  }

  /** Handlers that were there are unchanged; a new one was turned away, or dropped with its guard in the queue. */
  ghost predicate Settled(before: seq<Handler>, hs: seq<Handler>, canceled: seq<Guard>) {
    && before <= hs
    && forall h :: |before| <= h < |hs| ==>
         hs[h].phase.Throttled? || (hs[h].phase.Dropped? && Guard(h, hs[h].req.id) in canceled)
  }

  /** Who has the new requests after a poll: only an error makes the stream drop one it has read. */
  ghost predicate Handled(before: seq<Handler>, hs: seq<Handler>, canceled: seq<Guard>, r: StreamPoll) {
    if r.Ready? && r.value.Some? && r.value.value.Err? then Settled(before, hs, canceled)
    else Custody(before, hs, HandleOf(r))
  }

  function HandleOf(r: StreamPoll): Option<Handle> {
    if YieldedBy(r).Some? then Some(YieldedBy(r).value.handle) else None
  }

  lemma NewCustody(hs: seq<Handler>)
    ensures Custody(hs, hs, None)
  {
  }

  lemma CustodyThen(before: seq<Handler>, mid: seq<Handler>, hs: seq<Handler>, held: Option<Handle>)
    requires Custody(before, mid, None) && Custody(mid, hs, held)
    ensures Custody(before, hs, held)
  {
  }

  lemma CustodySettles(before: seq<Handler>, hs: seq<Handler>, canceled: seq<Guard>)
    requires Custody(before, hs, None)
    ensures Settled(before, hs, canceled)
  {
  }

  lemma HandledThen(before: seq<Handler>, mid: seq<Handler>, hs: seq<Handler>, canceled: seq<Guard>, r: StreamPoll)
    requires Custody(before, mid, None) && Handled(mid, hs, canceled, r)
    ensures Handled(before, hs, canceled, r)
  {
  }

  lemma DroppedSettles(before: seq<Handler>, hs: seq<Handler>, canceled: seq<Guard>, h: Handle)
    requires Custody(before, hs, Some(h)) && Guard(h, hs[h].req.id) in canceled
    ensures Settled(before, hs[h := hs[h].(phase := Dropped)], canceled)
  {
  }

  lemma ArmedCustody(before: seq<Handler>, hs: seq<Handler>, h: Handle)
    requires Custody(before, hs, Some(h))
    ensures Custody(before, hs[h := hs[h].(phase := Armed)], Some(h))
  {
  }

  lemma RejectedCustody(hs: seq<Handler>, before: seq<Handler>, written: seq<Reply>, wrote: seq<Reply>)
    requires Rejected(hs, before, written, wrote)
    ensures Custody(before, hs, None)
  {
    forall h | |before| <= h < |hs| ensures hs[h].phase.Throttled? {
      assert hs[|before|..][h - |before|] == hs[h];
    }
  }

  class Requests {
    const channel: BaseChannel
    const throttle: MaxRequests?        // the channel is limited
    var pendingResponses: seq<Reply>

    constructor (channel: BaseChannel, throttle: MaxRequests?)
      requires throttle != null ==> throttle.inner == channel
      requires channel.Valid()
      ensures this.channel == channel && this.throttle == throttle && pendingResponses == [] && Valid()
    {
      this.channel, this.throttle := channel, throttle;
      pendingResponses := [];
    }

    ghost predicate Valid()
      reads channel, channel.inFlightRequests
    {
      channel.Valid() && (throttle != null ==> throttle.inner == channel)
    }

    ghost function View(): Server
      reads this, channel, channel.inFlightRequests, channel.aborts
    {
      channel.View(pendingResponses)
    }

    ghost function Limit(): Option<nat> {
      if throttle == null then None else Some(throttle.maxInFlight)
    }

    // ---------------------------------------------------------------- reading

    /** The throttler was at its limit and found the sink full when it last looked. */
    ghost predicate Blocked()
      reads throttle
    {
      throttle != null && throttle.look.blocked
    }

    /**
     Why nothing was read: there is nothing, or the throttler did not look for want of room, and then
     what waited then still waits.
     */
    ghost predicate Waits()
      reads channel, channel.inFlightRequests, throttle
    {
      if Blocked()
      then channel.transport.inbound == throttle.look.inbound
      else channel.ReadIdle() && !(channel.transport.ended && channel.inFlightRequests.requestData == map[])
    }

    /** What the channel yielded, and what it means if it yielded nothing. */
    ghost predicate Read(r: StreamPoll, phase: Phase)
      reads channel, channel.inFlightRequests, throttle
    {
      match r
      case Ready(Some(Ok(t))) =>
        && t.handle < |channel.handlers| && channel.handlers[t.handle].req == t.request
        && channel.handlers[t.handle].phase == phase
      case Ready(Some(Err(e))) => e.ReadError? || !channel.transport.Faultless()
      case Ready(None) =>
        && !Blocked() && Watched() && channel.ReadIdle()
        && channel.transport.ended && channel.inFlightRequests.requestData == map[]
      case Pending => Waits() && Watched()
    }

    /** What the throttler saw when it looked is still so. */
    ghost predicate Watched()
      reads channel, channel.inFlightRequests, throttle
    {
      throttle != null ==> Blocking() && throttle.look.flushed == channel.transport.flushed
    }

    /** The throttler did not read, exactly because it was at its limit and the sink was full when it looked. */
    ghost predicate Blocking()
      requires throttle != null
      reads channel, channel.inFlightRequests, throttle
    {
      Blocked() <==>
        && channel.InFlight() >= throttle.maxInFlight
        && |channel.transport.written| == throttle.look.flushed + channel.transport.capacity
    }

    /** The request that waits first, if it repeats no tracked id and no limit is reached. */
    ghost function Welcome(): Option<Request>
      reads channel`transport, channel.inFlightRequests
    {
      if throttle != null && channel.InFlight() >= throttle.maxInFlight then None
      else NewFirst(channel.transport.inbound, channel.inFlightRequests.requestData.Keys)
    }

    /** The limit, if there is one, holds after if it held before. */
    ghost predicate Within(were: nat)
      reads channel.inFlightRequests
    {
      throttle != null ==> PollWithin(were, channel.InFlight(), throttle.maxInFlight)
    }

    /** At its limit with a full sink the throttler will not read. */
    ghost predicate Stuck()
      reads channel, channel.inFlightRequests
    {
      throttle != null && channel.InFlight() >= throttle.maxInFlight && !channel.transport.HasRoom()
    }

    /** Nothing was read, written or flushed; unless the sink failed, the stream waits. */
    ghost predicate StoodStill(r: StreamPoll, t: Transport<Reply, ClientMessage>)
      reads channel
    {
      && t.SameTraffic(channel.transport) && channel.transport.flushed == t.flushed
      && (r.Pending? || !channel.transport.Faultless())
    }

    method PollPlain() returns (r: StreamPoll, ghost trace: seq<Event>, ghost duty: Duty)
      requires Valid() && throttle == null
      modifies channel`transport, channel`canceledRequests, channel`started, channel`handlers, channel`acts,
               channel.inFlightRequests, channel.aborts
      ensures Valid() && old(channel.transport).SameSide(channel.transport)
      ensures LeadsUnless(false, None, old(View()), Free, trace, View(), duty) && Owes(None, duty, r)
      ensures Read(r, Fresh) && Custody(old(channel.handlers), channel.handlers, HandleOf(r)) && !FailedWrite(r)
      ensures channel.transport.flushed == old(channel.transport.flushed)
      ensures old(channel.transport).Took(channel.transport, BrokenBy(r))
      ensures channel.Yields(Some(r), old(Welcome()))
    {
      hide BaseChannel.View, LeadsUnless, NoneExpired, Suffix, NewFirst, Transport.Took, CleansFirst;
      r, trace := channel.PollNext(None, Free, pendingResponses);
      duty := channel.Owed(Free, YieldedBy(r));
    }

    lemma AccountedCustody(r: StreamPoll, before: seq<Handler>, wrote: seq<Reply>)
      requires throttle != null && throttle.inner == channel && throttle.Accounted(r, before, wrote)
      ensures Custody(before, channel.handlers, HandleOf(r))
    {
      hide Rejected;
      if YieldedBy(r).Some? || (r.Ready? && r.value.Some? && r.value.value.error.WriteError?) {
        RejectedCustody(channel.handlers[..|channel.handlers| - 1], before, channel.transport.written, wrote);
      } else {
        RejectedCustody(channel.handlers, before, channel.transport.written, wrote);
      }
    }

    lemma AccountedYield(r: StreamPoll, before: seq<Handler>, wrote: seq<Reply>)
      requires throttle != null && throttle.inner == channel && throttle.Accounted(r, before, wrote)
      requires YieldedBy(r).Some?
      ensures Read(r, Fresh)
    {
    }

    method PollLimited() returns (r: StreamPoll, ghost trace: seq<Event>, ghost duty: Duty)
      requires Valid() && throttle != null
      modifies channel`transport, channel`canceledRequests, channel`started, channel`handlers, channel`acts,
               channel.inFlightRequests, channel.aborts, throttle
      ensures Valid() && old(channel.transport).SameSide(channel.transport)
      ensures LeadsUnless(FailedWrite(r), Limit(), old(View()), Free, trace, View(), duty) && Owes(Limit(), duty, r)
      ensures channel.transport.flushed == old(channel.transport.flushed)
      ensures Read(r, Fresh) && Within(old(channel.InFlight()))
      ensures Custody(old(channel.handlers), channel.handlers, HandleOf(r))
      ensures old(Stuck()) ==> StoodStill(r, old(channel.transport))
      ensures old(channel.transport).Took(channel.transport, BrokenBy(r))
      ensures channel.Yields(Some(r), old(Welcome()))
    {
      hide BaseChannel.View, LeadsUnless, BaseChannel.ReadIdle, Suffix, MaxRequests.Accounted,
           MaxRequests.FirstRejected, Custody, NewFirst, Transport.Took;
      ghost var before, wrote := channel.handlers, channel.transport.written;
      r, trace, duty := throttle.PollNext(pendingResponses);
      AccountedCustody(r, before, wrote);
      if YieldedBy(r).Some? {
        AccountedYield(r, before, wrote);
      }
    }

    method PollChannel() returns (r: StreamPoll, ghost trace: seq<Event>, ghost duty: Duty)
      requires Valid()
      modifies channel`transport, channel`canceledRequests, channel`started, channel`handlers, channel`acts,
               channel.inFlightRequests, channel.aborts, throttle
      ensures Valid() && old(channel.transport).SameSide(channel.transport)
      ensures LeadsUnless(FailedWrite(r), Limit(), old(View()), Free, trace, View(), duty) && Owes(Limit(), duty, r)
      ensures channel.transport.flushed == old(channel.transport.flushed)
      ensures Read(r, Fresh) && Within(old(channel.InFlight()))
      ensures Custody(old(channel.handlers), channel.handlers, HandleOf(r))
      ensures old(Stuck()) ==> StoodStill(r, old(channel.transport))
      ensures old(channel.transport).Took(channel.transport, BrokenBy(r))
      ensures channel.Yields(Some(r), old(Welcome()))
    {
      hide View, LeadsUnless, Read, Custody, NewFirst, Transport.Took;
      if throttle == null {
        r, trace, duty := PollPlain();
      } else {
        r, trace, duty := PollLimited();
      }
    }

    /** The guard becomes active once the request is handed out. */
    method Arm(t: TrackedRequest)
      requires t.handle < |channel.handlers| && channel.handlers[t.handle].phase.Fresh?
      modifies channel`handlers
      ensures channel.handlers == old(channel.handlers)[t.handle := old(channel.handlers)[t.handle].(phase := Armed)]
      ensures Step(old(View()), ServerProtocol.Arm(t.handle)) == Some(View())
    {
      channel.handlers := channel.handlers[t.handle := channel.handlers[t.handle].(phase := Armed)];
    }

    /** Yields a request with its guard active. */
    method PumpRead() returns (r: StreamPoll, ghost trace: seq<Event>)
      requires Valid()
      modifies channel`transport, channel`canceledRequests, channel`started, channel`handlers, channel`acts,
               channel.inFlightRequests, channel.aborts, throttle
      ensures Valid() && old(channel.transport).SameSide(channel.transport)
      ensures LeadsUnless(FailedWrite(r), Limit(), old(View()), Free, trace, View(), Free)
      ensures channel.transport.flushed == old(channel.transport.flushed)
      ensures Read(r, Armed) && Within(old(channel.InFlight()))
      ensures Custody(old(channel.handlers), channel.handlers, HandleOf(r))
      ensures old(Stuck()) ==> StoodStill(r, old(channel.transport))
      ensures old(channel.transport).Took(channel.transport, BrokenBy(r))
      ensures channel.Yields(Some(r), old(Welcome()))
    {
      hide View, LeadsUnless, BaseChannel.ReadIdle, Step, Custody, NewFirst, Transport.Took;
      ghost var v0, before, duty := View(), channel.handlers, Free;
      r, trace, duty := PollChannel();
      if YieldedBy(r).Some? {
        var t := r.value.value.value;
        ghost var v1, hs := View(), channel.handlers;
        Arm(t);
        ArmedCustody(before, hs, t.handle);
        UnlessOne(Limit(), v1, duty, ServerProtocol.Arm(t.handle));
        UnlessOn(Limit(), false, v0, Free, trace, v1, duty, false, [ServerProtocol.Arm(t.handle)], View(), Free);
        trace := trace + [ServerProtocol.Arm(t.handle)];
      }
    }

    // ---------------------------------------------------------------- writing

    /** Flushes until a response can be written. */
    method EnsureWriteable() returns (r: Poll<Result<(), ChannelError>>)
      requires Valid()
      modifies channel`transport
      ensures Valid() && old(channel.transport).SameTraffic(channel.transport) && View() == old(View())
      ensures old(channel.transport).Flushes(channel.transport)
      ensures match r
              case Ready(Ok(_)) => channel.transport.HasRoom()
              case Ready(Err(e)) => !channel.transport.Faultless() && !e.WriteError? && !e.ReadError?
              case Pending => !channel.transport.canFlush
      // which operation fails, and why, decides the error
      ensures (channel.transport, r) == old(channel.transport).Writeable()
    {
      hide BaseChannel.View;
      while true
        invariant Valid() && old(channel.transport).SameTraffic(channel.transport) && View() == old(View())
        invariant channel.transport == old(channel.transport) || FlushedFrom(old(channel.transport), channel.transport)
        invariant old(channel.transport).Flushes(channel.transport)
        decreases !channel.transport.HasRoom()
      {
        var ready := channel.PollReady(pendingResponses);
        if ready.Ready? {
          return ready;
        }
        var flush := channel.PollFlush(pendingResponses);
        if flush.Pending? || flush.value.Err? {
          return flush;
        }
      }
    }

    /** Takes a response from the queue once it can be written. */
    method PollNextResponse() returns (r: Poll<Result<Reply, ChannelError>>)
      requires Valid()
      modifies this`pendingResponses, channel`transport
      ensures Valid() && old(channel.transport).SameTraffic(channel.transport)
      ensures old(channel.transport).Flushes(channel.transport)
      ensures match r
              case Ready(Ok(reply)) =>
                && [reply] + pendingResponses == old(pendingResponses) && channel.transport.HasRoom()
                && (forall ok :: Step(old(View()), Write(ok)) == Some(SendReply(View(), reply, ok)))
              case Ready(Err(e)) =>
                && pendingResponses == old(pendingResponses) && View() == old(View())
                && !channel.transport.Faultless() && !e.WriteError? && !e.ReadError?
              case Pending =>
                && pendingResponses == old(pendingResponses) && View() == old(View())
                && (pendingResponses == [] || !channel.transport.canFlush)
    {
      var ready := EnsureWriteable();
      match ready {
        case Pending => return Pending;
        case Ready(Err(e)) => return Ready(Err(e));
        case Ready(Ok(_)) =>
      }
      if pendingResponses == [] {
        return Pending;
      }
      r := Ready(Ok(pendingResponses[0]));
      pendingResponses := pendingResponses[1..];
    }

    /** Sends a response taken from the queue to the channel. */
    method SendResponse(reply: Reply) returns (r: Result<(), ChannelError>)
      requires Valid() && channel.transport.HasRoom()
      modifies channel`transport, channel`acts, channel.inFlightRequests
      ensures Valid() && old(channel.transport).SameEnv(channel.transport)
      ensures channel.transport.flushed == old(channel.transport.flushed)
      ensures View() == SendReply(old(View()), reply, r.Ok?)
      ensures r.Err? ==> r.error.WriteError? && !channel.transport.Faultless()
      ensures channel.InFlight() <= old(channel.InFlight())
    {
      if reply.resp.id in channel.inFlightRequests.requestData {
        RemoveShrinks(channel.inFlightRequests.requestData, reply.resp.id);
      }
      r := channel.StartSend(reply, pendingResponses);
    }

    /**
     The write half has done its part: given a sink that works and can be flushed, a response that
     waited was taken and written, or, if none waited, everything written has left.
     */
    ghost predicate Pumped(queued: nat, trace: seq<Event>)
      reads this, channel
    {
      channel.transport.Faultless() && channel.transport.canFlush ==>
        if 0 < queued then |pendingResponses| < queued && Write(true) in trace
        else channel.transport.flushed == |channel.transport.written|
    }

    /** Writes one response, or flushes; the write half is over once nothing more can come. */
    method PumpWrite(readHalfClosed: bool) returns (r: Poll<Option<Result<(), ChannelError>>>, ghost trace: seq<Event>)
      requires Valid()
      modifies this`pendingResponses, channel`transport, channel`acts, channel.inFlightRequests
      ensures Valid() && old(channel.transport).SameEnv(channel.transport)
      ensures old(channel.transport).Flushes(channel.transport)
      ensures Leads(Limit(), old(View()), Free, trace, View(), Free) && channel.InFlight() <= old(channel.InFlight())
      // a response is written and reported as written, or not written and reported as such
      ensures trace == if r.Ready? && r.value.Some? && r.value.value.Ok? then [Write(true)]
                       else if r.Ready? && r.value.Some? && r.value.value.error.WriteError? then [Write(false)]
                       else []
      ensures Pumped(|old(pendingResponses)|, trace) && |pendingResponses| <= |old(pendingResponses)|
      ensures match r
              case Ready(Some(Ok(_))) => |pendingResponses| < |old(pendingResponses)|
              case Ready(Some(Err(e))) => !channel.transport.Faultless() && !e.ReadError?
              case Ready(None) =>
                && readHalfClosed && channel.InFlight() == 0 && pendingResponses == old(pendingResponses)
                && channel.inFlightRequests.View() == old(channel.inFlightRequests.View())
                && pendingResponses == [] && channel.transport.flushed == |channel.transport.written|
              case Pending =>
                && channel.inFlightRequests.View() == old(channel.inFlightRequests.View())
                && channel.transport.written == old(channel.transport.written)
                && pendingResponses == old(pendingResponses)
                && (channel.transport.canFlush ==>
                      && pendingResponses == [] && channel.transport.flushed == |channel.transport.written|
                      && !(readHalfClosed && channel.InFlight() == 0))
    {
      hide BaseChannel.View, Leads, Step, SendReply, Transport.PollFlush, Transport.Faultless;
      ghost var v0 := View();
      LeadsNowhere(Limit(), v0, Free);
      trace := [];
      var next := PollNextResponse();
      match next {
        case Ready(Err(e)) => r := Ready(Some(Err(e)));
        case Ready(Ok(reply)) =>
          var sent := SendResponse(reply);
          LeadsOne(Limit(), v0, Free, Write(sent.Ok?));
          trace := [Write(sent.Ok?)];
          r := Ready(Some(sent));
        case Pending =>
          var flush := channel.PollFlush(pendingResponses);
          match flush {
            case Pending => r := Pending;
            case Ready(Err(e)) => r := Ready(Some(Err(e)));
            case Ready(Ok(_)) => r := if readHalfClosed && channel.InFlight() == 0 then Ready(None) else Pending;
          }
      }
    }

    // ---------------------------------------------------------------- the stream

    /** `t` has a handler with an active guard. */
    ghost predicate Guarded(t: TrackedRequest)
      reads channel
    {
      && t.handle < |channel.handlers| && channel.handlers[t.handle].req == t.request
      && channel.handlers[t.handle].phase.Armed?
    }

    /** Dropping a request that was not handed out: its guard cancels it. */
    method DropRequest(t: TrackedRequest)
      requires Guarded(t)
      modifies channel`handlers, channel`canceledRequests
      ensures channel.handlers == old(channel.handlers)[t.handle := old(channel.handlers)[t.handle].(phase := Dropped)]
      ensures channel.canceledRequests == old(channel.canceledRequests) + [Guard(t.handle, t.request.id)]
      ensures Step(old(View()), DropHandler(t.handle)) == Some(View())
    {
      channel.handlers := channel.handlers[t.handle := channel.handlers[t.handle].(phase := Dropped)];
      channel.canceledRequests := channel.canceledRequests + [Guard(t.handle, t.request.id)];
    }

    /** A write failed: a request that was just read is dropped with the stream's error. */
    method GiveUp(read: StreamPoll, ghost before: seq<Handler>)
      returns (ghost trace: seq<Event>)
      requires Valid() && Custody(before, channel.handlers, HandleOf(read))
      requires YieldedBy(read).Some? ==> Guarded(YieldedBy(read).value)
      modifies channel`handlers, channel`canceledRequests
      ensures Valid() && Settled(before, channel.handlers, channel.canceledRequests)
      ensures LeadsUnless(false, Limit(), old(View()), Free, trace, View(), Free)
    {
      hide View, LeadsUnless, Step, Custody, Settled;
      ghost var v0, hs := View(), channel.handlers;
      if YieldedBy(read).Some? {
        var t := YieldedBy(read).value;
        DropRequest(t);
        DroppedSettles(before, hs, channel.canceledRequests, t.handle);
        UnlessOne(Limit(), v0, Free, DropHandler(t.handle));
        trace := [DropHandler(t.handle)];
      } else {
        CustodySettles(before, hs, channel.canceledRequests);
        UnlessNowhere(Limit(), v0, Free);
        trace := [];
      }
    }

    /** The peer hung up, every request was answered or given up, and every response has left. */
    ghost predicate CleanEnd()
      reads this, channel, channel.inFlightRequests
    {
      && channel.transport.inbound == [] && channel.transport.ended
      && channel.inFlightRequests.requestData == map[] && channel.canceledRequests == []
      && pendingResponses == [] && channel.transport.flushed == |channel.transport.written|
    }

    /**
     Both halves wait for the environment or for a handler. What could be read is left unread exactly
     if something waited when the throttler, at its limit, found the sink full: as much written and not
     yet flushed as it can hold.
     */
    ghost predicate Idle()
      reads this, channel, channel.inFlightRequests, throttle
    {
      && (channel.transport.inbound != [] <==> Blocked() && throttle.look.inbound != [])
      && (throttle != null ==> Blocking())
      && (!Blocked() ==> channel.ReadIdle())
      && (channel.transport.canFlush ==>
            && pendingResponses == [] && channel.transport.flushed == |channel.transport.written|
            && (!Blocked() ==> !(channel.transport.ended && channel.inFlightRequests.requestData == map[])))
    }

    /** What the result of a poll means. */
    ghost predicate Meant(r: StreamPoll)
      reads this, channel, channel.inFlightRequests, throttle
    {
      match r
      case Ready(Some(Ok(t))) => Guarded(t)
      case Ready(Some(Err(e))) => e.ReadError? || !channel.transport.Faultless()
      case Ready(None) => CleanEnd()
      case Pending => Idle()
    }

    /** All the write half has to do is to flush, and it can. */
    ghost predicate OnlyFlushes()
      reads this, channel
    {
      pendingResponses == [] && channel.transport.canFlush && channel.transport.Faultless()
    }

    /** The throttler will not read for want of room, though there would be room after a flush. */
    ghost predicate Stalls()
      reads this, channel, channel.inFlightRequests
    {
      Stuck() && OnlyFlushes()
    }

    /** The stream waits, with room in the sink, and has read nothing. */
    ghost predicate Stalled(r: StreamPoll, t: Transport<Reply, ClientMessage>)
      reads channel
    {
      r.Pending? && channel.transport.HasRoom() && t.SameEnv(channel.transport)
    }

    /** What both halves, if neither failed, amount to; None if polling goes on. */
    function Outcome(read: StreamPoll, write: Poll<Option<Result<(), ChannelError>>>)
      : Option<StreamPoll>
    {
      if read.Ready? && read.value.Some? then Some(read)
      else if write.Ready? && write.value.Some? then None
      else if read.Ready? && write.Ready? then Some(Ready(None))
      else Some(Pending)
    }

    predicate LostWriteOf(write: Poll<Option<Result<(), ChannelError>>>) {
      write.Ready? && write.value.Some? && write.value.value.Err? && write.value.value.error.WriteError?
    }

    /** The write half, after the read half. */
    method WriteAfter(read: StreamPoll)
      returns (write: Poll<Option<Result<(), ChannelError>>>, ghost trace: seq<Event>)
      requires Valid() && Read(read, Armed) && !(read.Ready? && read.value.Some? && read.value.value.Err?)
      modifies this`pendingResponses, channel`transport, channel`acts, channel.inFlightRequests
      ensures Valid() && old(channel.transport).SameEnv(channel.transport)
      ensures old(channel.transport).Flushes(channel.transport)
      ensures LeadsUnless(LostWriteOf(write), Limit(), old(View()), Free, trace, View(), Free)
      ensures channel.InFlight() <= old(channel.InFlight())
      ensures YieldedBy(read).Some? ==> Guarded(YieldedBy(read).value)
      ensures if write.Ready? && write.value.Some? && write.value.value.Err?
              then !channel.transport.Faultless() && !write.value.value.error.ReadError?
              else match Outcome(read, write)
                   case None => |pendingResponses| < |old(pendingResponses)| && Write(true) in trace
                   case Some(p) => Meant(p)
      ensures Pumped(|old(pendingResponses)|, trace) && |pendingResponses| <= |old(pendingResponses)|
      ensures read.Pending? && old(OnlyFlushes()) ==> write.Pending? && channel.transport.HasRoom()
    {
      hide View, Leads, NoneExpired, Pumped;
      hide BaseChannel.View;
      write, trace := PumpWrite(read.Ready? && read.value.None?);
    }

    /** The poll reports a failure of the sink, and there was one. */
    ghost predicate SinkFailed(r: StreamPoll)
      reads channel`transport
    {
      && r.Ready? && r.value.Some? && r.value.value.Err? && !r.value.value.error.ReadError?
      && !channel.transport.Faultless()
    }

    /** `first`, if there is such a request, is yielded, unless the sink fails. */
    ghost predicate Welcomed(r: Option<StreamPoll>, first: Option<Request>)
      reads channel`transport
    {
      first.Some? ==> channel.Yields(r, first) || (r.Some? && SinkFailed(r.value))
    }

    /** The write half, and what both halves together amount to; None if polling goes on. */
    method WriteHalf(read: StreamPoll, ghost before: seq<Handler>)
      returns (r: Option<StreamPoll>, ghost trace: seq<Event>)
      requires Valid() && Read(read, Armed) && !(read.Ready? && read.value.Some? && read.value.value.Err?)
      requires Custody(before, channel.handlers, HandleOf(read))
      modifies this`pendingResponses, channel`transport, channel`acts, channel.inFlightRequests,
               channel`handlers, channel`canceledRequests
      ensures Valid() && old(channel.transport).SameEnv(channel.transport)
      ensures old(channel.transport).Flushes(channel.transport) && channel.InFlight() <= old(channel.InFlight())
      ensures LeadsUnless(r.Some? && FailedWrite(r.value), Limit(), old(View()), Free, trace, View(), Free)
      ensures match r
              case None => && |pendingResponses| < |old(pendingResponses)| && Write(true) in trace
                           && Custody(before, channel.handlers, None)
              case Some(p) =>
                && Meant(p) && Handled(before, channel.handlers, channel.canceledRequests, p)
                && (p.Pending? ==> read.Pending? || (read.Ready? && read.value.None?))
      ensures read.Pending? && old(OnlyFlushes()) ==> r == Some(Pending) && channel.transport.HasRoom()
      ensures YieldedBy(read).Some? ==> r.Some? && (r.value == read || SinkFailed(r.value))
      ensures r.Some? ==> BrokenBy(r.value).None?
      ensures Pumped(|old(pendingResponses)|, trace) && |pendingResponses| <= |old(pendingResponses)|
    {
      hide View, LeadsUnless, Custody, Settled, Idle, Waits, CleanEnd, Guarded, Watched, BaseChannel.ReadIdle;
      ghost var v0 := View();
      var write;
      write, trace := WriteAfter(read);
      if write.Ready? && write.value.Some? && write.value.value.Err? {
        ghost var v1 := View();
        ghost var es := GiveUp(read, before);
        UnlessOn(Limit(), LostWriteOf(write), v0, Free, trace, v1, Free, false, es, View(), Free);
        return Some(Ready(Some(Err(write.value.value.error)))), trace + es;
      }
      r := Outcome(read, write);
    }

    predicate Fails(r: StreamPoll) {
      r.Ready? && r.value.Some? && r.value.value.Err?
    }

    /** One turn of the loop: the read half, then the write half; None if polling goes on. */
    method Turn() returns (r: Option<StreamPoll>, ghost trace: seq<Event>)
      requires Valid()
      modifies this`pendingResponses, channel`transport, channel`canceledRequests, channel`started, channel`handlers,
               channel`acts, channel.inFlightRequests, channel.aborts, throttle
      ensures Valid() && old(channel.transport).SameSide(channel.transport) && Within(old(channel.InFlight()))
      ensures LeadsUnless(r.Some? && FailedWrite(r.value), Limit(), old(View()), Free, trace, View(), Free)
      ensures old(channel.transport).Flushes(channel.transport)
      ensures match r
              case None => && |pendingResponses| < |old(pendingResponses)| && Write(true) in trace
                           && Custody(old(channel.handlers), channel.handlers, None)
              case Some(p) =>
                && Meant(p) && Handled(old(channel.handlers), channel.handlers, channel.canceledRequests, p)
                && (p.Pending? ==> LookedBetween(old(channel.transport.flushed)))
      ensures old(Stalls()) ==> r.Some? && Stalled(r.value, old(channel.transport))
      ensures old(channel.transport).Took(channel.transport, if r.Some? then BrokenBy(r.value) else None)
      ensures Welcomed(r, old(Welcome())) && |pendingResponses| <= |old(pendingResponses)|
      ensures r.Some? && !Fails(r.value) ==> Pumped(|old(pendingResponses)|, trace)
    {
      hide View, LeadsUnless, Custody, Settled, Idle, Waits, CleanEnd, Guarded, Blocking, BaseChannel.ReadIdle,
           NewFirst, Transport.Took;
      ghost var v0, before, t0 := View(), channel.handlers, channel.transport;
      var read;
      read, trace := PumpRead();
      if read.Ready? && read.value.Some? && read.value.value.Err? {
        CustodySettles(before, channel.handlers, channel.canceledRequests);
        return Some(read), trace;
      }
      ghost var v1, es, t1 := View(), [], channel.transport;
      r, es := WriteHalf(read, before);
      TookStill(t0, t1, channel.transport, None);
      UnlessOn(Limit(), false, v0, Free, trace, v1, Free, r.Some? && FailedWrite(r.value), es, View(), Free);
      trace := trace + es;
    }

    /** The throttler's last look falls between then and now. */
    ghost predicate LookedBetween(flushedThen: nat)
      reads channel, throttle
    {
      throttle != null ==> flushedThen <= throttle.look.flushed <= channel.transport.flushed
    }

    /** Yields the next request; meanwhile writes the responses that are ready. */
    method PollNext() returns (r: StreamPoll, ghost trace: seq<Event>)
      requires Valid()
      modifies this`pendingResponses, channel`transport, channel`canceledRequests, channel`started, channel`handlers,
               channel`acts, channel.inFlightRequests, channel.aborts, throttle
      ensures Valid() && old(channel.transport).SameSide(channel.transport)
      ensures LeadsUnless(FailedWrite(r), Limit(), old(View()), Free, trace, View(), Free)
      ensures Meant(r) && Within(old(channel.InFlight())) && old(channel.transport).Flushes(channel.transport)
      ensures r.Pending? ==> LookedBetween(old(channel.transport.flushed))
      ensures Handled(old(channel.handlers), channel.handlers, channel.canceledRequests, r)
      ensures old(Stalls()) ==> Stalled(r, old(channel.transport))
      // what has left the stream was received, in order; an error of reading is the one that the stream gave
      ensures old(channel.transport).Took(channel.transport, BrokenBy(r))
      // below the limit, a new request that waits first is yielded, unless the sink fails
      ensures Welcomed(Some(r), old(Welcome()))
      // every poll that does not fail pumps the write half, also when it yields a request
      ensures !Fails(r) ==> Pumped(|old(pendingResponses)|, trace)
    {
      hide View, LeadsUnless, Custody, Handled, Meant, NewFirst, Transport.Took;
      ghost var v0, before, t0 := View(), channel.handlers, channel.transport;
      UnlessNowhere(Limit(), v0, Free);
      NewCustody(before);
      TookNothing(t0, t0);
      trace := [];
      while true
        invariant Valid() && t0.SameSide(channel.transport) && Within(old(channel.InFlight()))
        invariant LeadsUnless(false, Limit(), v0, Free, trace, View(), Free)
        invariant Custody(before, channel.handlers, None) && t0.Flushes(channel.transport)
        invariant t0.Took(channel.transport, None) && (old(Welcome()).Some? ==> Welcome() == old(Welcome()))
        invariant |pendingResponses| <= |old(pendingResponses)|
        invariant |pendingResponses| < |old(pendingResponses)| ==> Write(true) in trace
        invariant old(Stalls()) ==> Stalls() && channel.transport == t0
        decreases |pendingResponses|
      {
        ghost var es, v1, t1, mid := [], View(), channel.transport, channel.handlers;
        var turn;
        turn, es := Turn();
        UnlessOn(Limit(), false, v0, Free, trace, v1, Free, turn.Some? && FailedWrite(turn.value), es, View(), Free);
        TookOn(t0, t1, channel.transport, if turn.Some? then BrokenBy(turn.value) else None);
        trace := trace + es;
        if turn.Some? {
          HandledThen(before, mid, channel.handlers, channel.canceledRequests, turn.value);
          return turn.value, trace;
        }
        CustodyThen(before, mid, channel.handlers, None);
      }
    }
  }
}

/** What the runs of the server say about the stream of requests. */
module StreamTheorems {
  import opened Types
  import opened Flights
  import opened ServerProtocol
  import opened ServerTheorems
  import opened Discipline
  import opened Transports
  import opened ServerChannel
  import opened Throttler
  import opened RequestStream

  /** A poll leads from one point of a disciplined run to another. */
  lemma PollStaysDisciplined(requests: Requests, before: Server, trace: seq<Event>, r: StreamPoll)
    requires Disciplined(requests.Limit(), before, Free)
    requires LeadsUnless(FailedWrite(r), requests.Limit(), before, Free, trace, requests.View(), Free)
    ensures Disciplined(requests.Limit(), requests.View(), Free) && Reachable(requests.View())
  {
    StaysDisciplined(requests.Limit(), before, Free, trace, requests.View(), Free);
    DisciplinedKept(requests.Limit(), requests.View(), Free);
  }

  /** Unless a poll reports a failed write, no write has failed. */
  lemma PollStaysIntact(requests: Requests, before: Server, trace: seq<Event>, r: StreamPoll)
    requires Intact(requests.Limit(), before, Free) && !FailedWrite(r)
    requires LeadsUnless(FailedWrite(r), requests.Limit(), before, Free, trace, requests.View(), Free)
    ensures Intact(requests.Limit(), requests.View(), Free)
  {
    StaysIntact(requests.Limit(), before, Free, trace, requests.View(), Free);
  }

  // ------------------------------------------------------------------ every request read

  /**
   The throttler decides every request that leaves the stream: it repeats an id tracked at that moment,
   or it is the one yielded, or exactly one rejection was written for it, or that write failed.
   */
  lemma EveryRequestIsDecided(m: MaxRequests, q: seq<Reply>, before: Server, es: seq<Event>, duty: Duty,
                              r: StreamPoll, p: nat) returns (k: nat, h: Handle)
    requires LeadsUnless(FailedWrite(r), Some(m.maxInFlight), before, Free, es, m.inner.View(q), duty)
    requires m.Accounted(r, before.handlers, before.sent)
    requires |before.received| <= p < |m.inner.transport.read| && m.inner.transport.read[p].Call?
    ensures k < |es| && es[k].Take? && es[k].msg == m.inner.transport.read[p]
    ensures Exec(before, es[..k]).Some? && Taken(Exec(before, es[..k]).value, m.inner.View(q), p, h)
    ensures m.inner.transport.read[p].request.id in Exec(before, es[..k]).value.flights.slots
         || Decided(m, r, before, h, m.inner.transport.read[p].request)
  {
    k, h := EveryCallStartsOrRepeats(before, es, p);
    hide LeadsUnless, Exec, Step;
    if m.inner.transport.read[p].request.id !in Exec(before, es[..k]).value.flights.slots {
      AccountedDecides(m, r, before, h);
    }
  }

  ghost predicate Decided(m: MaxRequests, r: StreamPoll, before: Server, h: Handle, request: Request)
    reads m.inner
  {
    || (YieldedBy(r).Some? && YieldedBy(r).value == TrackedRequest(request, h))
    || (FailedWrite(r) && h == |m.inner.handlers| - 1 && m.inner.handlers[h].phase.Throttled?)
    || OnceRejected(m.inner.transport.written, |before.sent|, h, request)
  }

  /** Among what was written since, there is one answer of handler `h`, and it is a rejection. */
  ghost predicate OnceRejected(written: seq<Reply>, since: nat, h: Handle, request: Request) {
    exists w :: since <= w < |written| && written[w] == Rejection(h, request)
                && forall x :: since <= x < |written| && written[x].origin == h ==> x == w
  }

  lemma RejectedOnce(hs: seq<Handler>, before: seq<Handler>, written: seq<Reply>, wrote: seq<Reply>, h: Handle)
    requires Rejected(hs, before, written, wrote) && |before| <= h < |hs|
    ensures OnceRejected(written, |wrote|, h, hs[h].req)
  {
    var w := |wrote| + h - |before|;
    assert hs[|before|..][h - |before|] == hs[h];
    assert written[w] == Rejection(h, hs[h].req);
  }

  lemma AccountedDecides(m: MaxRequests, r: StreamPoll, before: Server, h: Handle)
    requires m.Accounted(r, before.handlers, before.sent) && |before.handlers| <= h < |m.inner.handlers|
    ensures Decided(m, r, before, h, m.inner.handlers[h].req)
  {
    hide Rejected, OnceRejected;
    var n := |m.inner.handlers|;
    if YieldedBy(r).Some? || FailedWrite(r) {
      if h < n - 1 {
        RejectedOnce(m.inner.handlers[..n - 1], before.handlers, m.inner.transport.written, before.sent, h);
      }
    } else {
      RejectedOnce(m.inner.handlers, before.handlers, m.inner.transport.written, before.sent, h);
    }
  }

  /**
   So does the stream, with or without a throttler: what repeats no tracked id is yielded, was turned
   away, or, if the poll ends with an error, was dropped with its guard queued.
   */
  lemma EveryRequestIsSeenTo(requests: Requests, before: Server, es: seq<Event>, r: StreamPoll, p: nat)
    returns (k: nat, h: Handle)
    requires LeadsUnless(FailedWrite(r), requests.Limit(), before, Free, es, requests.View(), Free)
    requires Handled(before.handlers, requests.channel.handlers, requests.channel.canceledRequests, r)
    requires |before.received| <= p < |requests.channel.transport.read| && requests.channel.transport.read[p].Call?
    ensures k < |es| && es[k].Take? && es[k].msg == requests.channel.transport.read[p]
    ensures Exec(before, es[..k]).Some? && Taken(Exec(before, es[..k]).value, requests.View(), p, h)
    ensures requests.channel.transport.read[p].request.id in Exec(before, es[..k]).value.flights.slots
         || HandleOf(r) == Some(h) || requests.channel.handlers[h].phase.Throttled?
         || (requests.channel.handlers[h].phase.Dropped?
             && Guard(h, requests.channel.handlers[h].req.id) in requests.channel.canceledRequests
             && r.Ready? && r.value.Some? && r.value.value.Err?)
  {
    k, h := EveryCallStartsOrRepeats(before, es, p);
    hide LeadsUnless, Exec, Step;
  }

  /** What happens to a stream: polls that report no failed write, and moves of handlers and clocks. */
  ghost predicate Harmless(limit: Option<nat>, v: Server, v': Server) {
    || (exists trace :: LeadsUnless(false, limit, v, Free, trace, v', Free))
    || (exists e :: HandlerMoves(v, e, v'))
  }

  ghost predicate HandlerMoves(v: Server, e: Event, v': Server) {
    (e.Respond? || e.SeeAbort? || e.DropHandler? || e.Tick?) && Step(v, e) == Some(v')
  }

  ghost predicate HarmlessRun(limit: Option<nat>, vs: seq<Server>) {
    && vs != [] && vs[0] == Init()
    && forall j, k :: 0 <= j < k < |vs| && k == j + 1 ==> Harmless(limit, vs[j], vs[k])
  }

  lemma {:induction false} HarmlessRunIsIntact(limit: Option<nat>, vs: seq<Server>, k: nat)
    requires HarmlessRun(limit, vs) && k < |vs|
    ensures Intact(limit, vs[k], Free)
    decreases k
  {
    hide Intact, LeadsUnless, Step;
    if k == 0 {
      NewIsIntact(limit);
    } else {
      HarmlessRunIsIntact(limit, vs, k - 1);
      var v, v' := vs[k - 1], vs[k];
      assert Harmless(limit, v, v');
      if trace :| LeadsUnless(false, limit, v, Free, trace, v', Free) {
        SafelyIntact(limit, v, trace, v');
      } else {
        var e :| HandlerMoves(v, e, v');
        HandlersStayIntact(limit, v, Free, e);
      }
    }
  }

  lemma SafelyIntact(limit: Option<nat>, v: Server, trace: seq<Event>, v': Server)
    requires Intact(limit, v, Free) && LeadsUnless(false, limit, v, Free, trace, v', Free)
    ensures Intact(limit, v', Free)
  {
    StaysIntact(limit, v, Free, trace, v', Free);
  }

  /**
   When the stream ends and no poll has reported a failed write, every request ever accepted was
   answered on the wire, cancelled, expired, or given up by its handler's guard; no response was lost.
   */
  lemma CleanEndAccountsForAll(requests: Requests, vs: seq<Server>, i: Id)
    requires HarmlessRun(requests.Limit(), vs) && vs[|vs| - 1] == requests.View() && requests.CleanEnd()
    ensures CountActs(requests.channel.acts, Start(i))
            == CountReplies(requests.channel.transport.written, i)
               + CountActs(requests.channel.acts, End(i, ByCancel))
               + CountActs(requests.channel.acts, End(i, ByDeadline))
               + CountActs(requests.channel.acts, End(i, ByGuard))
    ensures NoneLost(requests.channel.acts)
    ensures requests.channel.transport.flushed == |requests.channel.transport.written|
  {
    HarmlessRunIsIntact(requests.Limit(), vs, |vs| - 1);
    IntactIsDisciplined(requests.Limit(), requests.View(), Free);
    EveryStartAccounted(requests.Limit(), requests.View(), i);
  }

  /**
   A stream that waits, with room to write, has a guarded handler at work for everything it tracks; if
   its throttler found the sink full, a dropped handler's guard may also be still unheard.
   */
  lemma IdleMeansHandlersWork(requests: Requests, i: Id)
    requires Disciplined(requests.Limit(), requests.View(), Free)
    requires requests.Idle() && requests.channel.transport.canFlush
    requires i in requests.channel.inFlightRequests.requestData
    ensures var h := requests.channel.inFlightRequests.requestData[i].data;
            && h < |requests.channel.handlers|
            && (|| requests.channel.handlers[h].phase.Armed?
                || (requests.Blocked() && requests.channel.handlers[h].phase.Dropped?
                    && Guard(h, i) in requests.channel.canceledRequests))
  {
    NoLeakUnderStream(requests.Limit(), requests.View(), i);
  }

  /** A channel that has nothing to do has let no deadline pass: everything tracked is still on time. */
  lemma WaitingIsOnTime(channel: BaseChannel, q: seq<Reply>, i: Id)
    requires Reachable(channel.View(q)) && channel.ReadIdle() && i in channel.inFlightRequests.requestData
    ensures channel.inFlightRequests.requestData[i].data < |channel.handlers|
    ensures channel.now < channel.handlers[channel.inFlightRequests.requestData[i].data].req.deadline
  {
    DueIffPastDeadline(channel.View(q), i);
  }

  // ------------------------------------------------------------------ waiting with work to do

  /** One request answered, its response not yet flushed, and a second one being handled. */
  function AtTheLimit(a: Request, b: Request, m: Result<Resp, ServerError>): Server {
    ServerState(
      [Call(a), Call(b)], Flights(map[b.id := Slot(1, 0)], map[0 := Timer(b.id, b.deadline)]),
      [Handler(a, 0, Replied(m)), Handler(b, 1, Armed)], map[], [], [], [Reply(0, Response(a.id, m))],
      [Start(a.id), End(a.id, Answered), Start(b.id)], true, 0)
  }

  lemma OneAnswered(a: Request, m: Result<Resp, ServerError>) returns (v: Server)
    ensures Disciplined(Some(1), v, Free)
    ensures v == ServerState([Call(a)], NoFlights(), [Handler(a, 0, Replied(m))], map[], [], [],
                             [Reply(0, Response(a.id, m))], [Start(a.id), End(a.id, Answered)], true, 0)
  {
    hide Disciplined;
    NewStream(1);
    var duty;
    v, duty := Proceed(1, Init(), Free, Check);
    v, duty := Proceed(1, v, duty, Take(Call(a), 0));
    v, duty := Proceed(1, v, duty, Arm(0));
    v, duty := Proceed(1, v, duty, Respond(0, m));
    v, duty := Proceed(1, v, duty, Write(true));
    assert v.flights.slots == map[] && v.flights.timers == map[];
  }

  lemma AtTheLimitIsReached(a: Request, b: Request, m: Result<Resp, ServerError>)
    ensures Disciplined(Some(1), AtTheLimit(a, b, m), Free) && AtTheLimit(a, b, m).flights.Agree()
  {
    hide Disciplined;
    var v := OneAnswered(a, m);
    var duty;
    v, duty := Proceed(1, v, Free, Check);
    v, duty := Proceed(1, v, duty, Take(Call(b), 0));
    v, duty := Proceed(1, v, duty, Arm(1));
    assert v == AtTheLimit(a, b, m);
  }

  /** A channel in the midst of a run. */
  method ChannelAt(v: Server, t: Transport<Reply, ClientMessage>) returns (c: BaseChannel)
    requires v.alive && v.flights.Agree() && t.Valid() && t.read == v.received && t.written == v.sent
    ensures fresh(c) && fresh(c.inFlightRequests) && fresh(c.aborts)
    ensures c.Valid() && c.View(v.respQ) == v && c.transport == t
  {
    c := new BaseChannel(t.(read := [], written := [], flushed := 0));
    c.transport, c.canceledRequests, c.started, c.now := t, v.cancelQ, |v.handlers|, v.now;
    c.handlers, c.acts := v.handlers, v.acts;
    c.inFlightRequests.requestData, c.inFlightRequests.deadlines := v.flights.slots, v.flights.timers;
    c.aborts.flags := v.aborted;
  }

  /**
   The throttler is at its limit and the sink is full, but can be flushed. The poll flushes it, and
   waits, although it now has room and a request is there to be read.
   */
  method StalledPoll(a: Request, b: Request, c: Request, m: Result<Resp, ServerError>)
    returns (requests: Requests, r: StreamPoll)
    ensures requests.throttle != null && requests.throttle.maxInFlight == 1
    ensures Disciplined(Some(1), requests.View(), Free)
    ensures r.Pending? && requests.channel.transport.inbound == [Message(Call(c))]
    ensures requests.channel.transport.HasRoom() && requests.pendingResponses == []
  {
    AtTheLimitIsReached(a, b, m);
    var v := AtTheLimit(a, b, m);
    var t := Transport([Message(Call(c))], false, v.received, v.sent, 0, 1, true, true, (n: nat) => None, 0);
    var channel := ChannelAt(v, t);
    var throttle := new MaxRequests(channel, 1);
    requests := new Requests(channel, throttle);
    ghost var trace;
    r, trace := requests.PollNext();
    PollStaysDisciplined(requests, v, trace, r);
  }
}
