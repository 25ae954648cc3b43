/** Every step of the channel and of its handlers keeps the server's invariants. */
module ServerProofs {
  import opened Types
  import opened Flights
  import opened ServerProtocol

  // ------------------------------------------------------------------ appending to histories

  lemma ActAppended(acts: seq<Act>, a: Act, i: Id, b: Act)
    ensures LiveIn(acts + [a], i) == if a.id == i then a.Start? else LiveIn(acts, i)
    ensures CountActs(acts + [a], b) == CountActs(acts, b) + (if a == b then 1 else 0)
    ensures Alternates(acts + [a]) == (Alternates(acts) && (a.Start? <==> !LiveIn(acts, a.id)))
  {
    assert (acts + [a])[..|acts|] == acts;
  }

  lemma CallAppended(received: seq<ClientMessage>, m: ClientMessage, i: Id)
    ensures CountCalls(received + [m], i) == CountCalls(received, i) + (if m.Call? && m.request.id == i then 1 else 0)
  {
    assert (received + [m])[..|received|] == received;
  }

  lemma ReplyAppended(sent: seq<Reply>, r: Reply, i: Id)
    ensures CountReplies(sent + [r], i) == CountReplies(sent, i) + (if r.resp.id == i then 1 else 0)
  {
    assert (sent + [r])[..|sent|] == sent;
  }

  /** The history of ids after request `id` started. */
  lemma StartHistory(slots: map<Id, Slot<Handle>>, acts: seq<Act>, id: Id, slot: Slot<Handle>)
    requires HistoryOk(slots, acts, true) && id !in slots
    ensures HistoryOk(slots[id := slot], acts + [Start(id)], true)
  {
    forall i ensures i in slots[id := slot] <==> LiveIn(acts + [Start(id)], i) {
      ActAppended(acts, Start(id), i, Start(i));
    }
    ActAppended(acts, Start(id), id, Start(id));
  }

  /** The history of ids after request `id` ended. */
  lemma EndHistory(slots: map<Id, Slot<Handle>>, acts: seq<Act>, id: Id, how: How)
    requires HistoryOk(slots, acts, true) && id in slots
    ensures HistoryOk(slots - {id}, acts + [End(id, how)], true)
  {
    forall i ensures i in slots - {id} <==> LiveIn(acts + [End(id, how)], i) {
      ActAppended(acts, End(id, how), i, Start(i));
    }
    ActAppended(acts, End(id, how), id, Start(id));
  }

  lemma TakeCounts(acts: seq<Act>, received: seq<ClientMessage>, sent: seq<Reply>, m: ClientMessage)
    requires CountsOk(acts, received, sent)
    ensures CountsOk(acts, received + [m], sent)
    ensures m.Call? ==> CountsOk(acts + [Start(m.request.id)], received + [m], sent)
  {
    var received' := received + [m];
    forall i ensures CountOk(i, acts, received', sent) {
      assert CountOk(i, acts, received, sent);
      CallAppended(received, m, i);
    }
    if m.Call? {
      var acts' := acts + [Start(m.request.id)];
      forall i ensures CountOk(i, acts', received', sent) {
        assert CountOk(i, acts, received, sent);
        CallAppended(received, m, i);
        ActAppended(acts, Start(m.request.id), i, Start(i));
        ActAppended(acts, Start(m.request.id), i, End(i, Answered));
      }
    }
  }

  /** An answered request is one more reply; any other end is none. */
  lemma EndCounts(acts: seq<Act>, received: seq<ClientMessage>, sent: seq<Reply>, id: Id, how: How, sent': seq<Reply>)
    requires CountsOk(acts, received, sent)
    requires if how.Answered?
             then |sent'| == |sent| + 1 && sent' == sent + [sent'[|sent|]] && sent'[|sent|].resp.id == id
             else sent' == sent
    ensures CountsOk(acts + [End(id, how)], received, sent')
  {
    var acts' := acts + [End(id, how)];
    forall i ensures CountOk(i, acts', received, sent') {
      assert CountOk(i, acts, received, sent);
      ActAppended(acts, End(id, how), i, Start(i));
      ActAppended(acts, End(id, how), i, End(i, Answered));
      if how.Answered? {
        ReplyAppended(sent, sent'[|sent|], i);
      }
    }
  }

  lemma UntrackHistory(v: Server, i: Id, how: How)
    requires History(v) && v.alive && how != Answered
    ensures History(Untrack(v, i, how))
  {
    if i in v.flights.slots {
      EndHistory(v.flights.slots, v.acts, i, how);
      EndCounts(v.acts, v.received, v.sent, i, how, v.sent);
    }
  }

  lemma SendHistory(v: Server, reply: Reply, ok: bool)
    requires History(v) && v.alive
    ensures History(SendReply(v, reply, ok))
  {
    var i := reply.resp.id;
    if i in v.flights.slots {
      if ok {
        EndHistory(v.flights.slots, v.acts, i, Answered);
        EndCounts(v.acts, v.received, v.sent, i, Answered, v.sent + [reply]);
      } else {
        UntrackHistory(v, i, LostWrite);
      }
    }
  }

  lemma TakeHistory(v: Server, m: ClientMessage, key: Key)
    requires History(v) && Step(v, Take(m, key)).Some?
    ensures History(Step(v, Take(m, key)).value)
  {
    TakeCounts(v.acts, v.received, v.sent, m);
    match m {
      case Call(r) =>
        if r.id !in v.flights.slots {
          StartHistory(v.flights.slots, v.acts, r.id, Slot(|v.handlers|, key));
        }
      case Cancel(i) => UntrackHistory(v.(received := v.received + [m]), i, ByCancel);
    }
  }

  /** Every step extends the history of each id by what it does to it. */
  lemma StepHistory(v: Server, e: Event)
    requires v.flights.Agree() && History(v) && Step(v, e).Some?
    ensures History(Step(v, e).value)
  {
    match e {
      case Take(m, key) => TakeHistory(v, m, key);
      case TakeGuard => UntrackHistory(v.(cancelQ := v.cancelQ[1..]), v.cancelQ[0].id, ByGuard);
      case Expire(key) =>
        ExpireIsRemove(v.flights, key);
        UntrackHistory(v, v.flights.timers[key].id, ByDeadline);
      case Throttle(h, ok) =>
        SendHistory(v.(handlers := To(v, h, Throttled)),
                    Reply(h, Response(v.handlers[h].req.id, Err(THROTTLE_ERROR))), ok);
      case Write(ok) => SendHistory(v.(respQ := v.respQ[1..]), v.respQ[0], ok);
      case _ =>
    }
  }

  // ------------------------------------------------------------------ tracked requests and handlers

  lemma UntrackBase(v: Server, i: Id, how: How)
    requires Base(v) && v.alive
    ensures Base(Untrack(v, i, how))
  {
    if i in v.flights.slots {
      RemoveAgrees(v.flights, i);
    }
  }

  /** Aborting comes with untracking, so no tracked handler is aborted. */
  lemma AbortTracked(slots: map<Id, Slot<Handle>>, handlers: seq<Handler>, aborted: map<Handle, Why>, i: Id, why: Why)
    requires TrackedOk(slots, handlers, aborted) && i in slots
    ensures TrackedOk(slots - {i}, handlers, aborted[slots[i].data := why])
  {
  }

  lemma AbortBase(v: Server, i: Id, how: How, why: Why)
    requires Base(v) && v.alive
    requires i in v.flights.slots ==>
               AbortsOk(v.aborted[v.flights.slots[i].data := why], v.handlers, v.received, v.now, v.alive)
    ensures Base(AbortRequest(v, i, how, why))
  {
    UntrackBase(v, i, how);
    if i in v.flights.slots {
      AbortTracked(v.flights.slots, v.handlers, v.aborted, i, why);
    }
  }

  lemma SendBase(v: Server, reply: Reply, ok: bool)
    requires Base(v) && v.alive && FromHandler(v.handlers, reply)
    ensures Base(SendReply(v, reply, ok))
  {
    UntrackBase(v, reply.resp.id, Answered);
  }

  lemma TakeCancelBase(v: Server, i: Id)
    requires Base(v) && v.alive
    ensures Base(AbortRequest(v.(received := v.received + [Cancel(i)]), i, ByCancel, CancelArrived(|v.received|)))
  {
    AbortBase(v.(received := v.received + [Cancel(i)]), i, ByCancel, CancelArrived(|v.received|));
  }

  lemma StartTimers(flights: Flights<Handle>, handlers: seq<Handler>, handlers': seq<Handler>, r: Request,
                    key: Key, now: Time)
    requires flights.Agree() && key !in flights.timers && TimersOk(flights, handlers, now)
    requires forall i :: i in flights.slots ==> flights.slots[i].data < |handlers|
    requires |handlers'| == |handlers| + 1 && handlers <= handlers' && handlers'[|handlers|].req == r
    ensures TimersOk(flights.Insert(r.id, |handlers|, key, ExpiryOf(now, r.deadline)), handlers', now)
  {
  }

  lemma StartTracked(slots: map<Id, Slot<Handle>>, handlers: seq<Handler>, aborted: map<Handle, Why>, x: Handler,
                     key: Key)
    requires TrackedOk(slots, handlers, aborted) && x.req.id !in slots && (forall h :: h in aborted ==> h < |handlers|)
    ensures TrackedOk(slots[x.req.id := Slot(|handlers|, key)], handlers + [x], aborted)
  {
  }

  lemma StartReplies(replies: seq<Reply>, handlers: seq<Handler>, x: Handler)
    requires RepliesOk(replies, handlers)
    ensures RepliesOk(replies, handlers + [x])
  {
  }

  lemma StartHandlers(handlers: seq<Handler>, received: seq<ClientMessage>, r: Request)
    requires HandlersOk(handlers, received)
    ensures HandlersOk(handlers + [Handler(r, |received|, Fresh)], received + [Call(r)])
  {
  }

  lemma StartAborts(aborted: map<Handle, Why>, handlers: seq<Handler>, received: seq<ClientMessage>, now: Time,
                    alive: bool, x: Handler, m: ClientMessage)
    requires AbortsOk(aborted, handlers, received, now, alive)
    ensures AbortsOk(aborted, handlers + [x], received + [m], now, alive)
  {
  }

  lemma StartBase(v: Server, r: Request, key: Key)
    requires Base(v) && v.alive && r.id !in v.flights.slots && key !in v.flights.timers
    ensures Base(StartRequest(v, r, key))
  {
    InsertAgrees(v.flights, r.id, |v.handlers|, key, ExpiryOf(v.now, r.deadline));
    var x := Handler(r, |v.received|, Fresh);
    StartTimers(v.flights, v.handlers, v.handlers + [x], r, key, v.now);
    StartTracked(v.flights.slots, v.handlers, v.aborted, x, key);
    StartReplies(v.respQ, v.handlers, x);
    StartReplies(v.sent, v.handlers, x);
    StartHandlers(v.handlers, v.received, r);
    StartAborts(v.aborted, v.handlers, v.received, v.now, v.alive, x, Call(r));
  }

  lemma TakeBase(v: Server, m: ClientMessage, key: Key)
    requires Base(v) && Step(v, Take(m, key)).Some?
    ensures Base(Step(v, Take(m, key)).value)
  {
    match m {
      case Call(r) =>
        if r.id !in v.flights.slots {
          StartBase(v, r, key);
        }
      case Cancel(i) => TakeCancelBase(v, i);
    }
  }

  lemma ExpireBase(v: Server, key: Key)
    requires Base(v) && Step(v, Expire(key)).Some?
    ensures Base(Step(v, Expire(key)).value)
  {
    hide RepliesOk, HandlersOk, Latest;
    ExpireIsRemove(v.flights, key);
    AbortBase(v, v.flights.timers[key].id, ByDeadline, DeadlinePassed);
  }

  lemma PhaseTracked(v: Server, h: Handle, phase: Phase)
    requires TrackedOk(v.flights.slots, v.handlers, v.aborted) && TimersOk(v.flights, v.handlers, v.now)
    requires h < |v.handlers|
    ensures TrackedOk(v.flights.slots, To(v, h, phase), v.aborted) && TimersOk(v.flights, To(v, h, phase), v.now)
  {
  }

  lemma PhaseHandlers(v: Server, h: Handle, phase: Phase)
    requires HandlersOk(v.handlers, v.received) && AbortsOk(v.aborted, v.handlers, v.received, v.now, v.alive)
    requires h < |v.handlers|
    ensures HandlersOk(To(v, h, phase), v.received) && AbortsOk(v.aborted, To(v, h, phase), v.received, v.now, v.alive)
  {
  }

  lemma PhaseReplies(v: Server, h: Handle, phase: Phase, replies: seq<Reply>)
    requires RepliesOk(replies, v.handlers) && (In(v, h, Fresh) || In(v, h, Armed))
    ensures RepliesOk(replies, To(v, h, phase))
  {
  }

  /** A handler moves on. Its responses stay its own. */
  lemma PhaseBase(v: Server, h: Handle, phase: Phase)
    requires Base(v) && (In(v, h, Fresh) || In(v, h, Armed))
    ensures Base(v.(handlers := To(v, h, phase)))
  {
    PhaseTracked(v, h, phase);
    PhaseHandlers(v, h, phase);
    PhaseReplies(v, h, phase, v.respQ);
    PhaseReplies(v, h, phase, v.sent);
  }

  lemma ThrottleBase(v: Server, h: Handle, ok: bool)
    requires Base(v) && Step(v, Throttle(h, ok)).Some?
    ensures Base(Step(v, Throttle(h, ok)).value)
  {
    PhaseBase(v, h, Throttled);
    SendBase(v.(handlers := To(v, h, Throttled)), Reply(h, Response(v.handlers[h].req.id, Err(THROTTLE_ERROR))), ok);
  }

  lemma WriteBase(v: Server, ok: bool)
    requires Base(v) && Step(v, Write(ok)).Some?
    ensures Base(Step(v, Write(ok)).value)
  {
    SendBase(v.(respQ := v.respQ[1..]), v.respQ[0], ok);
  }

  lemma AbortAllOk(aborted: map<Handle, Why>, slots: map<Id, Slot<Handle>>, handlers: seq<Handler>,
                   received: seq<ClientMessage>, now: Time)
    requires AbortsOk(aborted, handlers, received, now, true) && TrackedOk(slots, handlers, aborted)
    ensures AbortsOk(AbortAll(aborted, TrackedHandlers(slots)), handlers, received, now, false)
  {
  }

  lemma NothingTracked(handlers: seq<Handler>, aborted: map<Handle, Why>, now: Time)
    ensures NoFlights<Handle>().Agree() && TrackedOk(NoFlights<Handle>().slots, handlers, aborted)
    ensures TimersOk(NoFlights(), handlers, now) && RepliesOk([], handlers)
  {
  }

  lemma DropChannelBase(v: Server)
    requires v.alive && TrackedOk(v.flights.slots, v.handlers, v.aborted) && RepliesOk(v.sent, v.handlers)
    requires HandlersOk(v.handlers, v.received) && AbortsOk(v.aborted, v.handlers, v.received, v.now, v.alive)
    ensures Base(Step(v, DropChannel).value)
  {
    hide TrackedOk, RepliesOk, HandlersOk, AbortsOk, TimersOk, AbortAll, TrackedHandlers;
    AbortAllOk(v.aborted, v.flights.slots, v.handlers, v.received, v.now);
    NothingTracked(v.handlers, AbortAll(v.aborted, TrackedHandlers(v.flights.slots)), v.now);
  }

  lemma RespondReplies(v: Server, h: Handle, message: Result<Resp, ServerError>)
    requires In(v, h, Armed) && RepliesOk(v.respQ, v.handlers)
    ensures RepliesOk(v.respQ + [Reply(h, Response(v.handlers[h].req.id, message))], To(v, h, Replied(message)))
  {
  }

  lemma RespondBase(v: Server, h: Handle, message: Result<Resp, ServerError>)
    requires Base(v) && Step(v, Respond(h, message)).Some?
    ensures Base(Step(v, Respond(h, message)).value)
  {
    PhaseBase(v, h, Replied(message));
    RespondReplies(v, h, message);
  }

  lemma TickBase(v: Server, now: Time)
    requires Base(v) && Step(v, Tick(now)).Some?
    ensures Base(Step(v, Tick(now)).value)
  {
  }

  lemma StepBase(v: Server, e: Event)
    requires Base(v) && Step(v, e).Some?
    ensures Base(Step(v, e).value)
  {
    match e {
      case Take(m, key) => TakeBase(v, m, key);
      case TakeGuard => UntrackBase(v.(cancelQ := v.cancelQ[1..]), v.cancelQ[0].id, ByGuard);
      case Expire(key) => ExpireBase(v, key);
      case Arm(h) => PhaseBase(v, h, Armed);
      case Throttle(h, ok) => ThrottleBase(v, h, ok);
      case Respond(h, message) => RespondBase(v, h, message);
      case SeeAbort(h) => PhaseBase(v, h, AbortSeen);
      case DropHandler(h) => PhaseBase(v, h, Dropped);
      case Write(ok) => WriteBase(v, ok);
      case DropChannel => DropChannelBase(v);
      case Tick(now) => TickBase(v, now);
      case Check =>
      case Leave =>
    }
  }

  // ------------------------------------------------------------------ leaks

  /** The head of the response queue only mattered to the request it answers. */
  lemma TailCares(slots: map<Id, Slot<Handle>>, handlers: seq<Handler>, respQ: seq<Reply>, cancelQ: seq<Guard>)
    requires NoLeakOk(slots, handlers, respQ, cancelQ) && respQ != []
    ensures NoLeakOk(slots - {respQ[0].resp.id}, handlers, respQ[1..], cancelQ)
  {
    forall i | i in slots && i != respQ[0].resp.id && slots[i].data < |handlers|
      ensures Cared(i, slots[i].data, handlers[slots[i].data].phase, respQ[1..], cancelQ)
    {
      if handlers[slots[i].data].phase.Replied? {
        var q :| 0 <= q < |respQ| && respQ[q].origin == slots[i].data && respQ[q].resp.id == i;
        assert respQ[1..][q - 1] == respQ[q];
      }
    }
  }

  /** A handler moves on: it keeps its promise, or nobody needs it any more. */
  lemma HandlerCares(slots: map<Id, Slot<Handle>>, handlers: seq<Handler>, respQ: seq<Reply>, cancelQ: seq<Guard>,
                     h: Handle, phase: Phase, respQ': seq<Reply>, cancelQ': seq<Guard>)
    requires NoLeakOk(slots, handlers, respQ, cancelQ) && h < |handlers|
    requires respQ <= respQ' && cancelQ <= cancelQ'
    requires forall i :: i in slots && slots[i].data == h ==> Cared(i, h, phase, respQ', cancelQ')
    ensures NoLeakOk(slots, handlers[h := handlers[h].(phase := phase)], respQ', cancelQ')
  {
    forall i | i in slots && slots[i].data < |handlers| && slots[i].data != h
      ensures Cared(i, slots[i].data, handlers[slots[i].data].phase, respQ', cancelQ')
    {
      if handlers[slots[i].data].phase.Replied? {
        var q :| 0 <= q < |respQ| && respQ[q].origin == slots[i].data && respQ[q].resp.id == i;
        assert respQ'[q] == respQ[q];
      }
    }
  }

  lemma FewerCares(slots: map<Id, Slot<Handle>>, handlers: seq<Handler>, respQ: seq<Reply>, cancelQ: seq<Guard>, i: Id)
    requires NoLeakOk(slots, handlers, respQ, cancelQ)
    ensures NoLeakOk(slots - {i}, handlers, respQ, cancelQ)
  {
  }

  lemma StartCares(slots: map<Id, Slot<Handle>>, handlers: seq<Handler>, respQ: seq<Reply>, cancelQ: seq<Guard>, i: Id,
                   key: Key, x: Handler)
    requires NoLeakOk(slots, handlers, respQ, cancelQ) && x.phase == Fresh
    requires forall j :: j in slots ==> slots[j].data < |handlers|
    ensures NoLeakOk(slots[i := Slot(|handlers|, key)], handlers + [x], respQ, cancelQ)
  {
  }

  lemma ChannelCares(v: Server, e: Event)
    requires v.flights.Agree() && TrackedOk(v.flights.slots, v.handlers, v.aborted) && Cares(v)
    requires (e.Take? || e.TakeGuard? || e.Expire? || e.DropChannel?) && Step(v, e).Some?
    ensures Cares(Step(v, e).value)
  {
    match e {
      case Take(Call(r), key) =>
        if r.id !in v.flights.slots {
          StartCares(v.flights.slots, v.handlers, v.respQ, v.cancelQ, r.id, key, Handler(r, |v.received|, Fresh));
        }
      case Take(Cancel(i), _) => FewerCares(v.flights.slots, v.handlers, v.respQ, v.cancelQ, i);
      case Expire(key) => FewerCares(v.flights.slots, v.handlers, v.respQ, v.cancelQ, v.flights.timers[key].id);
      case _ =>
    }
  }

  lemma AnswerCares(v: Server, e: Event)
    requires TrackedOk(v.flights.slots, v.handlers, v.aborted) && Cares(v)
    requires (e.Throttle? || e.Write?) && Step(v, e).Some?
    ensures Cares(Step(v, e).value)
  {
    if e.Throttle? {
      var i := v.handlers[e.h].req.id;
      FewerCares(v.flights.slots, v.handlers, v.respQ, v.cancelQ, i);
      HandlerCares(v.flights.slots - {i}, v.handlers, v.respQ, v.cancelQ, e.h, Throttled, v.respQ, v.cancelQ);
    } else {
      TailCares(v.flights.slots, v.handlers, v.respQ, v.cancelQ);
    }
    var n := Step(v, e).value;
    var i := if e.Throttle? then v.handlers[e.h].req.id else v.respQ[0].resp.id;
    assert n.flights.slots == v.flights.slots - {i};
  }

  lemma MoveCares(v: Server, e: Event)
    requires TrackedOk(v.flights.slots, v.handlers, v.aborted) && Cares(v) && (!v.alive ==> v.flights == NoFlights())
    requires (e.Arm? || e.Respond? || e.SeeAbort? || e.DropHandler?) && Step(v, e).Some?
    ensures Cares(Step(v, e).value)
  {
    var n := Step(v, e).value;
    if e.Respond? && v.alive {
      assert n.respQ[|v.respQ|] == Reply(e.h, Response(v.handlers[e.h].req.id, e.message));
    }
    HandlerCares(v.flights.slots, v.handlers, v.respQ, v.cancelQ, e.h, n.handlers[e.h].phase, n.respQ, n.cancelQ);
  }

  lemma TickCares(v: Server, e: Event)
    requires Cares(v) && (e.Tick? || e.Check? || e.Leave?) && Step(v, e).Some?
    ensures Cares(Step(v, e).value)
  {
  }

  // ------------------------------------------------------------------ origins

  lemma MoreHandlersStarted(handlers: seq<Handler>, handlers': seq<Handler>, i: Id)
    requires Started(handlers, i) && |handlers| <= |handlers'|
    requires forall h :: 0 <= h < |handlers| ==> handlers'[h].req == handlers[h].req
    ensures Started(handlers', i)
  {
    var h :| 0 <= h < |handlers| && handlers[h].req.id == i;
    assert handlers'[h].req.id == i;
  }

  lemma MoreHandlersCalled(received: seq<ClientMessage>, handlers: seq<Handler>, handlers': seq<Handler>)
    requires CalledOk(received, handlers) && |handlers| <= |handlers'|
    requires forall h :: 0 <= h < |handlers| ==> handlers'[h].req == handlers[h].req
    ensures CalledOk(received, handlers')
  {
    forall p | 0 <= p < |received| && received[p].Call? ensures Started(handlers', received[p].request.id) {
      MoreHandlersStarted(handlers, handlers', received[p].request.id);
    }
  }

  lemma TakeOrigins(v: Server, m: ClientMessage, key: Key)
    requires TrackedOk(v.flights.slots, v.handlers, v.aborted) && Origins(v) && Step(v, Take(m, key)).Some?
    ensures Origins(Step(v, Take(m, key)).value)
  {
    var n := Step(v, Take(m, key)).value;
    MoreHandlersCalled(v.received, v.handlers, n.handlers);
    if m.Call? {
      var h := if m.request.id in v.flights.slots then v.flights.slots[m.request.id].data else |v.handlers|;
      assert n.handlers[h].req.id == m.request.id;
      assert Started(n.handlers, m.request.id);
    }
    assert n.received == v.received + [m];
  }

  lemma MoveOrigins(v: Server, e: Event)
    requires Origins(v) && Step(v, e).Some?
    requires e.Arm? || e.Throttle? || e.Respond? || e.SeeAbort? || e.DropHandler?
    ensures Origins(Step(v, e).value)
  {
    MoreHandlersCalled(v.received, v.handlers, Step(v, e).value.handlers);
  }

  lemma StepOrigins(v: Server, e: Event)
    requires TrackedOk(v.flights.slots, v.handlers, v.aborted) && Origins(v) && Step(v, e).Some?
    ensures Origins(Step(v, e).value)
  {
    match e {
      case Take(m, key) => TakeOrigins(v, m, key);
      case Arm(_) => MoveOrigins(v, e);
      case Throttle(_, _) => MoveOrigins(v, e);
      case Respond(_, _) => MoveOrigins(v, e);
      case SeeAbort(_) => MoveOrigins(v, e);
      case DropHandler(_) => MoveOrigins(v, e);
      case _ =>
    }
  }

  // ------------------------------------------------------------------ cancels

  lemma TakeUncancelled(v: Server, m: ClientMessage, key: Key, i: Id)
    requires TrackedOk(v.flights.slots, v.handlers, v.aborted) && Step(v, Take(m, key)).Some?
    requires UncancelledAt(v.flights.slots, v.handlers, v.received, i)
    ensures var n := Step(v, Take(m, key)).value; UncancelledAt(n.flights.slots, n.handlers, n.received, i)
  {
  }

  /** A cancel that is read ends its request, so no request is tracked past its cancel. */
  lemma StepUncancelled(v: Server, e: Event, i: Id)
    requires TrackedOk(v.flights.slots, v.handlers, v.aborted) && Step(v, e).Some?
    requires UncancelledAt(v.flights.slots, v.handlers, v.received, i)
    ensures var n := Step(v, e).value; UncancelledAt(n.flights.slots, n.handlers, n.received, i)
  {
    if e.Take? {
      TakeUncancelled(v, e.msg, e.key, i);
    }
  }

  // ------------------------------------------------------------------ stopping handlers

  /** What is untracked under `i` without a word to its handler is not a handler at work. */
  lemma UntrackHeeded(v: Server, i: Id, how: How, origin: Handle, h: Handle)
    requires HeededAt(v.flights.slots, v.handlers, v.aborted, h)
    requires origin < |v.handlers| && v.handlers[origin].req.id == i
    requires !v.handlers[origin].phase.Fresh? && !v.handlers[origin].phase.Armed?
    ensures var n := Untrack(v, i, how); HeededAt(n.flights.slots, n.handlers, n.aborted, h)
  {
  }

  lemma SendHeeded(v: Server, reply: Reply, ok: bool, h: Handle)
    requires HeededAt(v.flights.slots, v.handlers, v.aborted, h) && FromHandler(v.handlers, reply)
    ensures var n := SendReply(v, reply, ok); HeededAt(n.flights.slots, n.handlers, n.aborted, h)
  {
    UntrackHeeded(v, reply.resp.id, if ok then Answered else LostWrite, reply.origin, h);
  }

  lemma PhaseHeeded(v: Server, j: Handle, phase: Phase, h: Handle)
    requires HeededAt(v.flights.slots, v.handlers, v.aborted, h) && j < |v.handlers|
    requires phase.Armed? ==> v.handlers[j].phase.Fresh?
    requires !phase.Fresh?
    ensures HeededAt(v.flights.slots, To(v, j, phase), v.aborted, h)
  {
    assert forall k :: 0 <= k < |v.handlers| ==> To(v, j, phase)[k].req == v.handlers[k].req;
    assert h < |v.handlers| && OnlyOne(To(v, j, phase), h) ==> OnlyOne(v.handlers, h);
  }

  lemma TakeHeeded(v: Server, m: ClientMessage, key: Key, h: Handle)
    requires HeededAt(v.flights.slots, v.handlers, v.aborted, h) && Step(v, Take(m, key)).Some?
    ensures var n := Step(v, Take(m, key)).value; HeededAt(n.flights.slots, n.handlers, n.aborted, h)
  {
    var n := Step(v, Take(m, key)).value;
    assert v.handlers <= n.handlers;
    if h < |v.handlers| && OnlyOne(n.handlers, h) {
      assert forall k :: 0 <= k < |v.handlers| ==> n.handlers[k] == v.handlers[k];
      assert OnlyOne(v.handlers, h);
    }
  }

  lemma ExpireHeeded(v: Server, key: Key, h: Handle)
    requires v.flights.Agree() && HeededAt(v.flights.slots, v.handlers, v.aborted, h) && Step(v, Expire(key)).Some?
    ensures var n := Step(v, Expire(key)).value; HeededAt(n.flights.slots, n.handlers, n.aborted, h)
  {
  }

  /** A handler at work loses its place only by being told to stop. */
  lemma StepHeeded(v: Server, e: Event, h: Handle)
    requires v.flights.Agree() && RepliesOk(v.respQ, v.handlers) && GuardsOk(v.cancelQ, v.handlers)
    requires HeededAt(v.flights.slots, v.handlers, v.aborted, h) && Step(v, e).Some?
    ensures var n := Step(v, e).value; HeededAt(n.flights.slots, n.handlers, n.aborted, h)
  {
    hide HeededAt, SendReply, Untrack, AbortRequest;
    match e {
      case Take(m, key) => TakeHeeded(v, m, key, h);
      case TakeGuard =>
        UntrackHeeded(v.(cancelQ := v.cancelQ[1..]), v.cancelQ[0].id, ByGuard, v.cancelQ[0].origin, h);
      case Expire(key) => ExpireHeeded(v, key, h);
      case Arm(j) => PhaseHeeded(v, j, Armed, h);
      case Throttle(j, ok) =>
        PhaseHeeded(v, j, Throttled, h);
        SendHeeded(v.(handlers := To(v, j, Throttled)),
                   Reply(j, Response(v.handlers[j].req.id, Err(THROTTLE_ERROR))), ok, h);
      case Respond(j, message) => PhaseHeeded(v, j, Replied(message), h);
      case SeeAbort(j) => PhaseHeeded(v, j, AbortSeen, h);
      case DropHandler(j) => PhaseHeeded(v, j, Dropped, h);
      case Write(ok) => SendHeeded(v.(respQ := v.respQ[1..]), v.respQ[0], ok, h);
      case DropChannel => DropHeeded(v, h);
      case _ =>
    }
  }

  lemma DropHeeded(v: Server, h: Handle)
    requires HeededAt(v.flights.slots, v.handlers, v.aborted, h) && Step(v, DropChannel).Some?
    ensures var n := Step(v, DropChannel).value; HeededAt(n.flights.slots, n.handlers, n.aborted, h)
  {
  }

  /** What an end means stays so. */
  lemma EndedStays(handlers: seq<Handler>, aborted: map<Handle, Why>, handlers': seq<Handler>,
                   aborted': map<Handle, Why>, i: Id, how: How)
    requires Ended(handlers, aborted, i, how) && |handlers| <= |handlers'|
    requires forall h :: 0 <= h < |handlers| ==>
               && handlers'[h].req == handlers[h].req
               && (handlers[h].phase.Fresh? || handlers[h].phase.Armed? || handlers'[h].phase == handlers[h].phase)
    requires forall h :: h in aborted ==> h in aborted' && aborted'[h] == aborted[h]
    ensures Ended(handlers', aborted', i, how)
  {
    var h :| 0 <= h < |handlers| && handlers[h].req.id == i && EndedBy(handlers[h].phase, WhyOf(aborted, h), how);
    assert handlers'[h].req.id == i && EndedBy(handlers'[h].phase, WhyOf(aborted', h), how);
  }

  /** A handler keeps its request, and once it is done it stays as it is. */
  lemma StepHandlers(v: Server, e: Event, h: Handle)
    requires Step(v, e).Some?
    ensures var n := Step(v, e).value;
            && |v.handlers| <= |n.handlers|
            && (h < |v.handlers| ==>
                  && n.handlers[h].req == v.handlers[h].req
                  && (v.handlers[h].phase.Fresh? || v.handlers[h].phase.Armed?
                      || n.handlers[h].phase == v.handlers[h].phase))
  {
  }

  lemma DropKeepsFlags(v: Server, h: Handle)
    requires TrackedOk(v.flights.slots, v.handlers, v.aborted) && h in v.aborted
    ensures var flags := AbortAll(v.aborted, TrackedHandlers(v.flights.slots)); h in flags && flags[h] == v.aborted[h]
  {
  }

  lemma AbortKeepsFlags(v: Server, i: Id, how: How, why: Why, h: Handle)
    requires TrackedOk(v.flights.slots, v.handlers, v.aborted) && h in v.aborted
    ensures var flags := AbortRequest(v, i, how, why).aborted; h in flags && flags[h] == v.aborted[h]
  {
  }

  lemma StepFlags(v: Server, e: Event, h: Handle)
    requires TrackedOk(v.flights.slots, v.handlers, v.aborted) && Step(v, e).Some? && h in v.aborted
    ensures h in Step(v, e).value.aborted && Step(v, e).value.aborted[h] == v.aborted[h]
  {
    hide TrackedOk, AbortAll, TrackedHandlers, AbortRequest;
    match e {
      case Take(Cancel(i), _) =>
        AbortKeepsFlags(v.(received := v.received + [Cancel(i)]), i, ByCancel, CancelArrived(|v.received|), h);
      case Expire(key) => AbortKeepsFlags(v, v.flights.timers[key].id, ByDeadline, DeadlinePassed, h);
      case DropChannel => DropKeepsFlags(v, h);
      case _ =>
    }
  }

  lemma AbortEnds(v: Server, i: Id, how: How, why: Why, p: nat)
    requires TrackedOk(v.flights.slots, v.handlers, v.aborted) && |v.acts| <= p
    requires (how.ByCancel? && why.CancelArrived?) || (how.ByDeadline? && why.DeadlinePassed?)
    ensures var n := AbortRequest(v, i, how, why); v.acts <= n.acts && EndTrue(n.acts, n.handlers, n.aborted, p)
  {
    hide Latest;
    if i in v.flights.slots {
      var n, h := AbortRequest(v, i, how, why), v.flights.slots[i].data;
      assert n.handlers[h].req.id == i && EndedBy(n.handlers[h].phase, WhyOf(n.aborted, h), how);
    }
  }

  lemma UntrackEnds(v: Server, i: Id, how: How, h: Handle, p: nat)
    requires h < |v.handlers| && v.handlers[h].req.id == i && EndedBy(v.handlers[h].phase, WhyOf(v.aborted, h), how)
    requires |v.acts| <= p
    ensures var n := Untrack(v, i, how); v.acts <= n.acts && EndTrue(n.acts, n.handlers, n.aborted, p)
  {
  }

  lemma SendEnds(v: Server, reply: Reply, ok: bool, p: nat)
    requires FromHandler(v.handlers, reply) && |v.acts| <= p
    ensures var n := SendReply(v, reply, ok); v.acts <= n.acts && EndTrue(n.acts, n.handlers, n.aborted, p)
  {
    UntrackEnds(v, reply.resp.id, if ok then Answered else LostWrite, reply.origin, p);
  }

  /** An end is recorded together with what it does. */
  lemma StepEndsOne(v: Server, e: Event, p: nat)
    requires TrackedOk(v.flights.slots, v.handlers, v.aborted) && v.flights.Agree() && Step(v, e).Some?
    requires RepliesOk(v.respQ, v.handlers) && GuardsOk(v.cancelQ, v.handlers) && |v.acts| <= p
    ensures var n := Step(v, e).value; v.acts <= n.acts && EndTrue(n.acts, n.handlers, n.aborted, p)
  {
    hide TrackedOk, Ended, Untrack, AbortRequest, SendReply;
    match e {
      case Take(Cancel(i), _) =>
        AbortEnds(v.(received := v.received + [Cancel(i)]), i, ByCancel, CancelArrived(|v.received|), p);
      case Expire(key) => AbortEnds(v, v.flights.timers[key].id, ByDeadline, DeadlinePassed, p);
      case TakeGuard =>
        UntrackEnds(v.(cancelQ := v.cancelQ[1..]), v.cancelQ[0].id, ByGuard, v.cancelQ[0].origin, p);
      case Throttle(h, ok) =>
        SendEnds(v.(handlers := To(v, h, Throttled)),
                 Reply(h, Response(v.handlers[h].req.id, Err(THROTTLE_ERROR))), ok, p);
      case Write(ok) => SendEnds(v.(respQ := v.respQ[1..]), v.respQ[0], ok, p);
      case _ =>
    }
  }

  lemma StepEndTrue(v: Server, e: Event, p: nat)
    requires TrackedOk(v.flights.slots, v.handlers, v.aborted) && v.flights.Agree() && Step(v, e).Some?
    requires RepliesOk(v.respQ, v.handlers) && GuardsOk(v.cancelQ, v.handlers)
    requires EndTrue(v.acts, v.handlers, v.aborted, p)
    ensures var n := Step(v, e).value; EndTrue(n.acts, n.handlers, n.aborted, p)
  {
    hide Step, Ended, TrackedOk, RepliesOk, GuardsOk;
    var n := Step(v, e).value;
    if p < |v.acts| {
      StepEndsOne(v, e, |v.acts|);
      forall h: Handle
        ensures h < |v.handlers| ==>
                  && h < |n.handlers| && n.handlers[h].req == v.handlers[h].req
                  && (v.handlers[h].phase.Fresh? || v.handlers[h].phase.Armed?
                      || n.handlers[h].phase == v.handlers[h].phase)
        ensures h in v.aborted ==> h in n.aborted && n.aborted[h] == v.aborted[h]
      {
        StepHandlers(v, e, h);
        if h in v.aborted {
          StepFlags(v, e, h);
        }
      }
      StepHandlers(v, e, 0);
      if v.acts[p].End? {
        EndedStays(v.handlers, v.aborted, n.handlers, n.aborted, v.acts[p].id, v.acts[p].how);
      }
    } else {
      StepEndsOne(v, e, p);
    }
  }

  lemma AllHeeded(v: Server, e: Event)
    requires Base(v) && Origins(v) && Heeded(v) && Step(v, e).Some?
    ensures Heeded(Step(v, e).value)
  {
    hide Step, HeededAt, EndTrue, TrackedOk, RepliesOk, GuardsOk;
    var n := Step(v, e).value;
    forall h ensures HeededAt(n.flights.slots, n.handlers, n.aborted, h) {
      StepHeeded(v, e, h);
    }
    forall p ensures EndTrue(n.acts, n.handlers, n.aborted, p) {
      StepEndTrue(v, e, p);
    }
  }

  /** Every step leaves every tracked request with someone to clean up after it. */
  lemma StepInv(v: Server, e: Event)
    requires Inv(v) && Step(v, e).Some?
    ensures Inv(Step(v, e).value)
  {
    hide Step, Cares, Origins, TrackedOk, UncancelledAt, Heeded;
    AllHeeded(v, e);
    StepBase(v, e);
    StepHistory(v, e);
    StepOrigins(v, e);
    var n := Step(v, e).value;
    forall i ensures UncancelledAt(n.flights.slots, n.handlers, n.received, i) {
      StepUncancelled(v, e, i);
    }
    if e.Take? || e.TakeGuard? || e.Expire? || e.DropChannel? {
      ChannelCares(v, e);
    } else if e.Throttle? || e.Write? {
      AnswerCares(v, e);
    } else if e.Tick? || e.Check? || e.Leave? {
      TickCares(v, e);
    } else {
      MoveCares(v, e);
    }
  }
}
