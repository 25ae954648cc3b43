/** What holds of the client in every run, however callers and dispatcher interleave. */
module ClientTheorems {
  import opened Types
  import opened Flights
  import opened DispatchProtocol
  import opened DispatchProofs
  import opened ClientProtocol
  import opened ClientProofs

  // ------------------------------------------------------------------ runs

  ghost predicate Reachable(c: Client) {
    exists max, buffer, ms :: Run(Init(max, buffer), ms) == Some(c)
  }

  lemma {:induction false} RunInv(c: Client, ms: seq<Move>)
    requires ClientInv(c) && Run(c, ms).Some?
    ensures ClientInv(Run(c, ms).value)
    decreases |ms|
  {
    if ms == [] {
    } else {
      NextInv(c, ms[0]);
      RunInv(Next(c, ms[0]).value, ms[1..]);
    }
  }

  lemma InitCoherent(max: nat, buffer: nat)
    ensures Coherent(Init(max, buffer))
  {
  }

  lemma InitInv(max: nat, buffer: nat)
    ensures ClientInv(Init(max, buffer))
  {
    hide Coherent;
    InitCoherent(max, buffer);
  }

  lemma ReachableInv(c: Client)
    requires Reachable(c)
    ensures ClientInv(c)
  {
    var max, buffer, ms :| Run(Init(max, buffer), ms) == Some(c);
    InitInv(max, buffer);
    RunInv(Init(max, buffer), ms);
  }

  lemma {:induction false} RunSnoc(c: Client, ms: seq<Move>, m: Move)
    requires Run(c, ms).Some?
    ensures Run(c, ms + [m]) == Next(Run(c, ms).value, m)
    decreases |ms|
  {
    if ms == [] {
      assert ms + [m] == [m];
    } else {
      assert (ms + [m])[1..] == ms[1..] + [m];
      RunSnoc(Next(c, ms[0]).value, ms[1..], m);
    }
  }

  lemma Continue(c: Client, m: Move) returns (c': Client)
    requires Reachable(c) && Next(c, m).Some?
    ensures Reachable(c') && Next(c, m) == Some(c')
  {
    var max, buffer, ms :| Run(Init(max, buffer), ms) == Some(c);
    RunSnoc(Init(max, buffer), ms, m);
    c' := Next(c, m).value;
  }

  /** A whole poll of the dispatcher, with the callers frozen, is part of a run. */
  lemma {:induction false} PollIsRun(c: Client, es: seq<Event>)
    requires Reachable(c) && Exec(c.d, es).Some?
    ensures Reachable(c.(d := Exec(c.d, es).value))
    decreases |es|
  {
    hide Reachable, Step;
    if es == [] {
      assert c.(d := c.d) == c;
    } else {
      var n := Continue(c, Dispatch(es[0]));
      PollIsRun(n, es[1..]);
    }
  }

  /**
   Requests in flight and timers are in bijection, though keys are used again: removing a timer
   never misses, and an expiry takes exactly its own request along.
   */
  lemma MapAndTimersAgree(c: Client, key: Key)
    requires Reachable(c)
    ensures c.d.flights.Agree() && |c.d.flights.timers| == |c.d.flights.slots| <= c.d.max
    ensures c.d.flights.timers == map[] <==> c.d.flights.slots == map[]
    ensures key in c.d.flights.timers ==>
              c.d.flights.timers[key].id in c.d.flights.slots
              && c.d.flights.Expire(key) == c.d.flights.Remove(c.d.flights.timers[key].id)
  {
    ReachableInv(c);
    SameSize(c.d.flights);
    EmptyTogether(c.d.flights);
    if key in c.d.flights.timers {
      ExpireIsRemove(c.d.flights, key);
    }
  }

  /** The timer of a request in flight is due exactly once the deadline that its caller gave has passed. */
  lemma DueIffPastDeadline(c: Client, i: Id)
    requires Reachable(c) && i in c.d.flights.slots
    ensures i in c.calls && c.d.flights.slots[i].data == c.calls[i].req.deadline
    ensures c.d.flights.slots[i].key in c.d.flights.timers
    ensures c.d.flights.timers[c.d.flights.slots[i].key].expiry <= c.d.now <==> c.calls[i].req.deadline <= c.d.now
  {
    ReachableInv(c);
    assert FateOk(c.d, i);
  }

  // ------------------------------------------------------------------ the cancellation race

  /**
   Whenever a call whose receiver is closed is in flight, its guard is still between close and
   cancel, or its cancellation is still queued.
   */
  lemma CancellationRace(c: Client, i: Id)
    requires Reachable(c) && i in c.d.flights.slots && i in c.d.closed
    ensures In(c, i, Closing(false)) || (In(c, i, CancelSent) && i in c.d.cancelQ)
  {
    ReachableInv(c);
  }

  /** The guard has cancelled, the cancellation has been consumed, and the request is not in flight. */
  ghost predicate Consumed(c: Client, i: Id) {
    && i in c.calls && (c.calls[i].phase.CancelSent? || c.calls[i].phase.Failed?)
    && i in c.d.closed && i !in c.d.cancelQ && !Committed(i, c.d.flights.slots.Keys, c.d.pc)
  }

  lemma ConsumedStays(c: Client, m: Move, i: Id)
    requires Consumed(c, i) && i < c.next && Next(c, m).Some? && (c.d.pc.Inserted? ==> c.d.pc.r.id in c.d.flights.slots)
    ensures Consumed(Next(c, m).value, i)
  {
    hide Step;
    if m.Dispatch? {
      var n := Step(c.d, m.event).value;
      StepFrame(c.d, m.event);
      StepTakesCancels(c.d, m.event);
      if Committed(i, n.flights.slots.Keys, n.pc) {
        StepCommits(c.d, m.event, n, i);
      }
    }
  }

  lemma {:induction false} ConsumedForever(c: Client, ms: seq<Move>, i: Id)
    requires ClientInv(c) && Consumed(c, i) && Run(c, ms).Some?
    ensures Consumed(Run(c, ms).value, i)
    decreases |ms|
  {
    if ms == [] {
    } else {
      ConsumedStays(c, ms[0], i);
      NextInv(c, ms[0]);
      ConsumedForever(Next(c, ms[0]).value, ms[1..], i);
    }
  }

  /**
   A cancellation consumed before its request is received is not missed: the request is skipped,
   in every continuation.
   */
  lemma EarlyCancelIsNotMissed(c: Client, ms: seq<Move>, i: Id)
    requires Reachable(c) && In(c, i, CancelSent) && i !in c.d.cancelQ && Run(c, ms).Some?
    ensures i !in Run(c, ms).value.d.flights.slots
  {
    ReachableInv(c);
    assert i in c.d.closed;
    ConsumedForever(c, ms, i);
  }

  // ------------------------------------------------------------------ conservation

  ghost function QueueCount(q: seq<Request>, i: Id): nat {
    if q == [] then 0 else (if q[0].id == i then 1 else 0) + QueueCount(q[1..], i)
  }

  lemma {:induction false} QueueCountIs(q: seq<Request>, i: Id)
    requires forall p, r :: 0 <= p < r < |q| ==> q[p].id != q[r].id
    ensures QueueCount(q, i) == if InQueue(q, i) then 1 else 0
  {
    if q == [] {
    } else {
      QueueCountIs(q[1..], i);
      if InQueue(q, i) && q[0].id != i {
        QueueTail(q);
      }
      assert forall p :: 0 <= p < |q[1..]| ==> q[1..][p] == q[p + 1];
    }
  }

  /** How often request `i` occurs in the queue, in hand, in flight, and among the settled. */
  ghost function Occurrences(d: State, i: Id): nat {
    QueueCount(d.pending, i) + (if d.pc.Holds(i) then 1 else 0) + (if i in d.flights.slots then 1 else 0)
    + (if i in d.sites && d.sites[i].Done? then 1 else 0)
  }

  /** Every accepted request is in exactly one place, in every reachable state; others are nowhere. */
  lemma ExactlyOnePlace(c: Client, i: Id)
    requires Reachable(c)
    ensures Occurrences(c.d, i) == if i in c.d.accepted then 1 else 0
  {
    hide TxsOk, WireOk, Routed, LifeOk, CallersInv;
    ReachableInv(c);
    QueueCountIs(c.d.pending, i);
  }

  lemma NextSettles(c: Client, m: Move, i: Id)
    requires Next(c, m).Some? && i in c.d.txs && !c.d.txs[i].Held? && !In(c, i, Reserved)
    ensures i in Next(c, m).value.d.txs && Next(c, m).value.d.txs[i] == c.d.txs[i]
  {
    if m.Dispatch? {
      StepSettles(c.d, m.event, i);
    }
  }

  /** In how many moves of a run a value is sent on `i`'s oneshot. */
  ghost function Sends(c: Client, ms: seq<Move>, i: Id): nat
    requires Run(c, ms).Some?
    decreases |ms|
  {
    if ms == [] then 0
    else
      var n := Next(c, ms[0]).value;
      (if i in n.d.txs && n.d.txs[i].Sent? && !(i in c.d.txs && c.d.txs[i].Sent?) then 1 else 0) + Sends(n, ms[1..], i)
  }

  /** Over a whole run a oneshot is sent at most one value, and a settled one keeps what it has. */
  lemma {:induction false} AtMostOneValue(c: Client, ms: seq<Move>, i: Id)
    requires ClientInv(c) && Run(c, ms).Some?
    ensures Sends(c, ms, i) <= 1
    ensures i in c.d.txs && !c.d.txs[i].Held? ==>
              && Sends(c, ms, i) == 0
              && i in Run(c, ms).value.d.txs && Run(c, ms).value.d.txs[i] == c.d.txs[i]
    decreases |ms|
  {
    if ms == [] {
    } else {
      NextInv(c, ms[0]);
      AtMostOneValue(Next(c, ms[0]).value, ms[1..], i);
      if i in c.d.txs && !c.d.txs[i].Held? {
        NextSettles(c, ms[0], i);
      }
    }
  }

  // ------------------------------------------------------------------ shutdown

  /**
   An accepted caller that is still waiting finds its sender dropped only once the dispatcher is
   gone; a caller told Shutdown was told so after that, or was turned away by a closed queue.
   */
  lemma ShutdownIsTruthful(c: Client, i: Id)
    requires Reachable(c) && i in c.calls
    ensures In(c, i, Waiting) ==> i in c.d.txs && (c.d.txs[i].Dropped? ==> c.d.life.Gone?)
    ensures In(c, i, Resolved(Err(Shutdown))) ==> c.d.life.Gone?
    ensures In(c, i, Failed) ==> i !in c.d.accepted && (c.d.terminal.Some? || c.d.life.Gone?)
  {
    ReachableInv(c);
    assert i in c.d.txs && c.d.txs[i].Sent? ==> Heard(i, c.d.txs[i].value, c.d.received);
  }

  /** What `pump_write` sees when both receivers are closed and drained. */
  ghost predicate Drained(d: State) {
    !d.open && d.pending == [] && d.cancelQ == [] && d.pc.Idle?
  }

  lemma DrainedAt(c: Client, i: Id)
    requires Reachable(c) && Drained(c.d)
    ensures i in c.d.flights.slots <==> In(c, i, Leaked) && i in c.d.txs && c.d.txs[i].Held?
  {
    hide WireOk, Routed, LifeOk, OutcomesOk, CancelledOk;
    ReachableInv(c);
    if i in c.d.flights.slots {
      CommittedIsAccepted(c.d, i);
    }
  }

  /** When both queues are closed and drained, only forgotten futures can have requests in flight. */
  lemma DrainedMeansEmpty(c: Client)
    requires Reachable(c) && Drained(c.d)
    ensures forall i :: i in c.d.flights.slots <==> In(c, i, Leaked) && i in c.d.txs && c.d.txs[i].Held?
    ensures (forall i :: i in c.calls ==> !c.calls[i].phase.Leaked?) ==> c.d.flights.slots == map[]
  {
    hide Reachable;
    forall i ensures i in c.d.flights.slots <==> In(c, i, Leaked) && i in c.d.txs && c.d.txs[i].Held? {
      DrainedAt(c, i);
    }
  }

  lemma NewClient() returns (c: Client)
    ensures c == Init(1, 1) && Reachable(c)
  {
    c := Init(1, 1);
    assert Run(c, []) == Some(c);
  }

  lemma OneQueued(body: Req, deadline: Time) returns (c: Client)
    ensures Reachable(c) && In(c, 0, Waiting) && c.calls.Keys == {0} && c.d.open && c.d.max == 1
    ensures c.d.cancelQ == [] && c.d.pending == [Request(0, deadline, body)] && Live(c.d) && c.d.flights == NoFlights()
    ensures c.d.closed == {}
  {
    hide Reachable;
    c := NewClient();
    c := Continue(c, StartCall(body, deadline));
    c := Continue(c, Reserve(0));
    c := Continue(c, Enqueue(0));
  }

  lemma OnePassed(body: Req, deadline: Time) returns (c: Client)
    ensures Reachable(c) && In(c, 0, Waiting) && c.calls.Keys == {0} && c.d.open
    ensures c.d.cancelQ == [] && c.d.pending == [] && c.d.flights == NoFlights()
    ensures c.d.pc == Passed(Request(0, deadline, body))
  {
    hide Reachable;
    c := OneQueued(body, deadline);
    c := Continue(c, Dispatch(Recv));
    c := Continue(c, Dispatch(Pass));
  }

  /** One call, its request written and in flight. */
  lemma OneInFlight(body: Req, deadline: Time) returns (c: Client)
    ensures Reachable(c) && In(c, 0, Waiting) && c.calls.Keys == {0} && c.d.open
    ensures c.d.pending == [] && c.d.cancelQ == [] && c.d.pc.Idle? && 0 in c.d.flights.slots
  {
    hide Reachable;
    c := OnePassed(body, deadline);
    c := Continue(c, Dispatch(Insert(0)));
    c := Continue(c, Dispatch(SendOk));
  }

  /** Forgetting one future is enough to leave a request in flight when both queues are drained. */
  lemma LeakStrandsRequest(body: Req, deadline: Time) returns (c: Client)
    ensures Reachable(c) && Drained(c.d) && 0 in c.d.flights.slots
  {
    hide Reachable;
    c := OneInFlight(body, deadline);
    c := Continue(c, Leak(0));
    c := Continue(c, DropChannel);
  }

  // ------------------------------------------------------------------ terminal errors

  /** What may become of a request once the terminal error `e` is recorded. */
  predicate FailsWith(fate: Fate, e: ChannelError) {
    fate == Completed(Err(Channel(e))) || fate.Aborted? || fate.Discarded?
  }

  /** Seen from request `i`, from `d` to `n` under terminal error `e` it is at most drained. */
  predicate DrainsAt(d: State, n: State, e: ChannelError, i: Id) {
    && (i in d.sites && d.sites[i].Done? ==> i in n.sites && n.sites[i] == d.sites[i])
    && (i in n.sites && n.sites[i].Done? && !(i in d.sites && d.sites[i].Done?) ==> FailsWith(n.sites[i].fate, e))
  }

  /** The transport is neither read nor written. */
  predicate LeavesWire(d: State, n: State, e: ChannelError) {
    n.terminal == Some(e) && n.log == d.log && n.received == d.received
  }

  lemma StepDrains(d: State, v: Event, e: ChannelError, i: Id)
    requires PlacesOk(d.accepted, d.sites, d.pending, d.flights.slots.Keys, d.pc) && LifeOk(d)
    requires d.terminal == Some(e) && Step(d, v).Some?
    ensures DrainsAt(d, Step(d, v).value, e, i) && LeavesWire(d, Step(d, v).value, e)
  {
    if v.Drop? {
      OwnsUnsettled(d);
    } else if v.DrainRecv? {
      assert At(d.accepted, d.sites, d.pending[0], Queued);
    }
  }

  lemma ReservedIsNew(c: Client, j: Id)
    requires CallsOk(c.calls, c.next, c.d.closed, c.d.accepted) && In(c, j, Reserved)
    requires PlacesOk(c.d.accepted, c.d.sites, c.d.pending, c.d.flights.slots.Keys, c.d.pc)
    ensures j !in c.d.sites
  {
  }

  lemma EnqueueDrains(d: State, j: Id, r: Request, e: ChannelError, i: Id)
    requires d.terminal == Some(e) && j !in d.sites
    ensures DrainsAt(d, Push(d, j, r), e, i) && LeavesWire(d, Push(d, j, r), e)
  {
  }

  lemma NextDrains(c: Client, m: Move, e: ChannelError, i: Id)
    requires ClientInv(c) && c.d.terminal == Some(e) && Next(c, m).Some?
    ensures DrainsAt(c.d, Next(c, m).value.d, e, i) && LeavesWire(c.d, Next(c, m).value.d, e)
  {
    hide Step, TxsOk, Routed, CancelsOk, WireOk, PlacesOk, LifeOk, CallsOk, OutcomesOk, CancelledOk, PermitsOk, RaceOk;
    match m {
      case Dispatch(event) => StepDrains(c.d, event, e, i);
      case Enqueue(j) =>
        ReservedIsNew(c, j);
        EnqueueDrains(c.d, j, c.calls[j].req, e, i);
      case _ =>
    }
  }

  /** Once a terminal error is recorded no later step reads or writes the transport. */
  lemma {:induction false} TerminalErrorIsFinal(c: Client, ms: seq<Move>, e: ChannelError, i: Id)
    requires ClientInv(c) && c.d.terminal == Some(e) && Run(c, ms).Some?
    ensures DrainsAt(c.d, Run(c, ms).value.d, e, i) && LeavesWire(c.d, Run(c, ms).value.d, e)
    decreases |ms|
  {
    if ms == [] {
    } else {
      NextDrains(c, ms[0], e, i);
      NextInv(c, ms[0]);
      TerminalErrorIsFinal(Next(c, ms[0]).value, ms[1..], e, i);
    }
  }

  /** At the end of the drain nothing is left unsettled. */
  lemma FinishedIsSettled(d: State, i: Id)
    requires Inv(d) && d.life.Finished? && d.life.result.Err?
    ensures d.terminal == Some(d.life.result.error)
    ensures d.pending == [] && d.flights.slots == map[] && d.rxClosed && d.reserved == {}
    ensures i in d.accepted ==> i in d.sites && i in d.txs && d.sites[i].Done? && !d.txs[i].Held?
    ensures i in d.accepted && d.sites[i] == Done(Completed(Err(Channel(d.life.result.error)))) && i !in d.closed ==>
              d.txs[i] == Sent(Err(Channel(d.life.result.error)))
    ensures i in d.accepted && i !in d.closed ==> !d.sites[i].fate.Aborted? && !d.sites[i].fate.Discarded?
  {
    assert d.flights.slots.Keys == {};
  }

  /**
   When the dispatcher ends with an error it is the first one, nothing is queued or in flight, every
   accepted request is settled, and one that was unanswered when the error was recorded and whose
   caller still waits was completed with that error.
   */
  lemma TerminalErrorDrains(c: Client, ms: seq<Move>, e: ChannelError, r: ChannelError, i: Id)
    requires Reachable(c) && c.d.terminal == Some(e)
    requires Run(c, ms).Some? && Run(c, ms).value.d.life == Finished(Err(r))
    ensures r == e
    ensures var d := Run(c, ms).value.d;
            && d.pending == [] && d.flights.slots == map[] && d.rxClosed && d.reserved == {}
            && (i in d.accepted ==> i in d.txs && !d.txs[i].Held?)
            && (In(Run(c, ms).value, i, Waiting) && !(i in c.d.sites && c.d.sites[i].Done?) ==>
                  i in d.txs && d.txs[i] == Sent(Err(Channel(e))))
  {
    ReachableInv(c);
    RunInv(c, ms);
    TerminalErrorIsFinal(c, ms, e, i);
    FinishedIsSettled(Run(c, ms).value.d, i);
  }

  // ------------------------------------------------------------------ what a call hands over

  /** How many calls a run has made. */
  function CallsMade(ms: seq<Move>): nat {
    if ms == [] then 0 else (if ms[0].StartCall? then 1 else 0) + CallsMade(ms[1..])
  }

  lemma NextKeepsRequest(c: Client, m: Move, i: Id)
    requires Next(c, m).Some?
    ensures var n := Next(c, m).value;
            && n.next == c.next + (if m.StartCall? then 1 else 0)
            && (i in c.calls && i < c.next ==> i in n.calls && n.calls[i].req == c.calls[i].req)
            && (m.StartCall? ==> c.next in n.calls && n.calls[c.next].req == Request(c.next, m.deadline, m.body))
  {
    hide Step;
  }

  /** A call's request stays as it was handed over, whatever happens. */
  lemma {:induction false} RunKeepsRequest(c: Client, ms: seq<Move>, i: Id)
    requires Run(c, ms).Some?
    ensures var n := Run(c, ms).value;
            && n.next == c.next + CallsMade(ms)
            && (i in c.calls && i < c.next ==> i in n.calls && n.calls[i].req == c.calls[i].req)
    decreases |ms|
  {
    hide Next;
    if ms == [] {
    } else {
      NextKeepsRequest(c, ms[0], i);
      RunKeepsRequest(Next(c, ms[0]).value, ms[1..], i);
    }
  }

  lemma {:induction false} CallInRun(c: Client, ms: seq<Move>, k: nat)
    requires Run(c, ms).Some? && k < |ms| && ms[k].StartCall?
    ensures var i := c.next + CallsMade(ms[..k]);
            i in Run(c, ms).value.calls && Run(c, ms).value.calls[i].req == Request(i, ms[k].deadline, ms[k].body)
    decreases |ms|
  {
    hide Next;
    NextKeepsRequest(c, ms[0], c.next);
    var n := Next(c, ms[0]).value;
    if k == 0 {
      assert ms[..0] == [];
      RunKeepsRequest(n, ms[1..], c.next);
    } else {
      CallInRun(n, ms[1..], k - 1);
      assert ms[..k][0] == ms[0] && ms[..k][1..] == ms[1..][..k - 1];
    }
  }

  /**
   The calls of a run draw the ids 0, 1, 2 and so on, and each hands over exactly what its caller
   passed: at any later time, what is written for that id is the caller's body with the caller's deadline.
   */
  lemma CallHandsOver(max: nat, buffer: nat, ms: seq<Move>, k: nat, p: nat)
    requires Run(Init(max, buffer), ms).Some? && k < |ms| && ms[k].StartCall?
    ensures var c, i := Run(Init(max, buffer), ms).value, CallsMade(ms[..k]);
            && i in c.calls && c.calls[i].req == Request(i, ms[k].deadline, ms[k].body)
            && (p < |c.d.log.sent| && c.d.log.sent[p].Call? && c.d.log.sent[p].request.id == i ==>
                  c.d.log.sent[p] == Call(Request(i, ms[k].deadline, ms[k].body)))
  {
    hide Next, ClientInv;
    var c := Run(Init(max, buffer), ms).value;
    CallInRun(Init(max, buffer), ms, k);
    InitInv(max, buffer);
    RunInv(Init(max, buffer), ms);
    if p < |c.d.log.sent| && c.d.log.sent[p].Call? {
      WrittenIsCalled(c, p);
    }
  }

  // ------------------------------------------------------------------ the bounded queue

  lemma ReserveCount(reserved: set<Id>, i: Id)
    ensures |reserved + {i}| <= |reserved| + 1
    ensures i in reserved ==> |reserved - {i}| == |reserved| - 1
  {
    if i in reserved {
      assert reserved + {i} == reserved;
      assert reserved == (reserved - {i}) + {i};
    } else {
      assert reserved !! {i};
    }
  }

  lemma StepQueue(d: State, e: Event)
    requires Step(d, e).Some?
    ensures |Step(d, e).value.pending| <= |d.pending| && Step(d, e).value.reserved == d.reserved
  {
    hide Complete, CancelEntry, DrainHead, DropAll;
    StepFrame(d, e);
    match e {
      case Read(resp) => CompleteShape(d.(received := d.received + [resp]), resp.id, ToOutcome(resp.message));
      case SendFail(cause) => CompleteShape(d.(pc := Idle), d.pc.r.id, Err(Send(cause)));
      case TakeCancel => CancelEntryShape(d.(cancelQ := d.cancelQ[1..]), d.cancelQ[0]);
      case Expire(key) => CompleteShape(d, d.flights.timers[key].id, Err(DeadlineExceeded));
      case DrainFlight(j) => CompleteShape(d, j, Err(Channel(d.terminal.value)));
      case DrainRecv => DrainHeadTail(d, d.terminal.value);
      case Drop => DropAllShape(d);
      case _ =>
    }
  }

  lemma DrainHeadTail(d: State, e: ChannelError)
    requires d.pending != []
    ensures DrainHead(d, e).pending == d.pending[1..]
  {
  }

  lemma HoldsPermit(c: Client, i: Id)
    requires ClientInv(c) && In(c, i, Reserved)
    ensures i in c.d.reserved
  {
  }

  lemma NextQueue(c: Client, m: Move)
    requires Next(c, m).Some? && |c.d.pending| + |c.d.reserved| <= c.buffer
    requires m.Enqueue? ==> m.id in c.d.reserved
    ensures var n := Next(c, m).value; |n.d.pending| + |n.d.reserved| <= n.buffer == c.buffer
  {
    hide Step;
    match m {
      case Dispatch(e) => StepQueue(c.d, e);
      case Reserve(i) => ReserveCount(c.d.reserved, i);
      case Enqueue(i) => ReserveCount(c.d.reserved, i);
      case _ =>
    }
  }

  lemma EnqueuesOnPermit(c: Client, i: Id)
    requires ClientInv(c) && Next(c, Enqueue(i)).Some?
    ensures i in c.d.reserved
  {
    hide ClientInv;
    HoldsPermit(c, i);
  }

  lemma {:induction false} RunQueue(c: Client, ms: seq<Move>)
    requires ClientInv(c) && Run(c, ms).Some? && |c.d.pending| + |c.d.reserved| <= c.buffer
    ensures var n := Run(c, ms).value; |n.d.pending| + |n.d.reserved| <= n.buffer == c.buffer
    decreases |ms|
  {
    hide Next, ClientInv;
    if ms == [] {
    } else {
      if ms[0].Enqueue? {
        EnqueuesOnPermit(c, ms[0].id);
      }
      NextQueue(c, ms[0]);
      NextInv(c, ms[0]);
      RunQueue(Next(c, ms[0]).value, ms[1..]);
    }
  }

  /** Requests that wait and permits to add one never exceed the size of the queue. */
  lemma QueueIsBounded(c: Client)
    requires Reachable(c)
    ensures |c.d.pending| + |c.d.reserved| <= c.buffer
  {
    hide Next, ClientInv;
    var max, buffer, ms :| Run(Init(max, buffer), ms) == Some(c);
    InitInv(max, buffer);
    RunQueue(Init(max, buffer), ms);
  }

  // ------------------------------------------------------------------ the cancellation queue

  ghost predicate Distinct(q: seq<Id>) {
    forall p, r :: 0 <= p < r < |q| ==> q[p] != q[r]
  }

  lemma StepCancelQueue(d: State, e: Event)
    requires Step(d, e).Some?
    ensures var n := Step(d, e).value;
            n.cancelQ == d.cancelQ || n.cancelQ == [] || (d.cancelQ != [] && n.cancelQ == d.cancelQ[1..])
  {
    hide Complete, CancelEntry, DrainHead, DropAll;
    match e {
      case Read(resp) => CompleteShape(d.(received := d.received + [resp]), resp.id, ToOutcome(resp.message));
      case SendFail(cause) => CompleteShape(d.(pc := Idle), d.pc.r.id, Err(Send(cause)));
      case TakeCancel => CancelEntryShape(d.(cancelQ := d.cancelQ[1..]), d.cancelQ[0]);
      case Expire(key) => CompleteShape(d, d.flights.timers[key].id, Err(DeadlineExceeded));
      case DrainFlight(j) => CompleteShape(d, j, Err(Channel(d.terminal.value)));
      case DrainRecv => DrainHeadShape(d, d.terminal.value);
      case Drop => DropAllShape(d);
      case _ =>
    }
  }

  /** A guard that has not cancelled yet is not in the queue. */
  lemma NotYetQueued(c: Client, i: Id)
    requires ClientInv(c) && i in c.calls && c.calls[i].phase.Closing?
    ensures i !in c.d.cancelQ
  {
  }

  lemma NextDistinct(c: Client, m: Move)
    requires Next(c, m).Some? && Distinct(c.d.cancelQ) && (m.CancelGuard? ==> m.id !in c.d.cancelQ)
    ensures Distinct(Next(c, m).value.d.cancelQ)
  {
    hide Step;
    if m.Dispatch? {
      StepCancelQueue(c.d, m.event);
    }
  }

  lemma CancelsNew(c: Client, i: Id)
    requires ClientInv(c) && Next(c, CancelGuard(i)).Some?
    ensures i !in c.d.cancelQ
  {
    hide ClientInv;
    NotYetQueued(c, i);
  }

  lemma {:induction false} RunDistinct(c: Client, ms: seq<Move>)
    requires ClientInv(c) && Run(c, ms).Some? && Distinct(c.d.cancelQ)
    ensures Distinct(Run(c, ms).value.d.cancelQ)
    decreases |ms|
  {
    hide Next, ClientInv, Distinct;
    if ms == [] {
    } else {
      if ms[0].CancelGuard? {
        CancelsNew(c, ms[0].id);
      }
      NextDistinct(c, ms[0]);
      NextInv(c, ms[0]);
      RunDistinct(Next(c, ms[0]).value, ms[1..]);
    }
  }

  /** No call is queued for cancelling twice. */
  lemma CancelledOnce(c: Client, p: nat, r: nat)
    requires Reachable(c) && p < r < |c.d.cancelQ|
    ensures c.d.cancelQ[p] != c.d.cancelQ[r]
  {
    hide Next, ClientInv;
    var max, buffer, ms :| Run(Init(max, buffer), ms) == Some(c);
    InitInv(max, buffer);
    RunDistinct(Init(max, buffer), ms);
  }

  // ------------------------------------------------------------------ the wire

  /** A written request is the one its caller gave, and is written nowhere else. */
  lemma WrittenIsCalled(c: Client, p: nat)
    requires ClientInv(c) && p < |c.d.log.sent| && c.d.log.sent[p].Call?
    ensures var r := c.d.log.sent[p].request;
            r.id in c.calls && c.calls[r.id].req == r && r.id in c.d.log.wroteAt && c.d.log.wroteAt[r.id] == p
  {
    assert WrittenOk(c.d.log.sent[p].request.id, c.d.log, c.d.accepted, c.d.sites, c.d.pc);
  }

  /** Each request is written at most once, exactly as its caller gave it. */
  lemma RequestsAreWrittenOnce(c: Client, p: nat, q: nat)
    requires Reachable(c) && p < |c.d.log.sent| && q < |c.d.log.sent| && c.d.log.sent[p].Call? && c.d.log.sent[q].Call?
    ensures c.d.log.sent[p].request.id == c.d.log.sent[q].request.id ==> p == q
    ensures c.d.log.sent[p].request.id in c.calls && c.calls[c.d.log.sent[p].request.id].req == c.d.log.sent[p].request
  {
    ReachableInv(c);
    WrittenIsCalled(c, p);
    WrittenIsCalled(c, q);
  }

  lemma CancelIsLater(d: State, q: nat) returns (p: nat)
    requires WireOk(d.log, d.accepted, d.sites, d.pc) && q < |d.log.sent| && d.log.sent[q].Cancel?
    requires forall j :: j in d.accepted ==> d.accepted[j].id == j
    ensures p < q && d.log.sent[p].Call? && d.log.sent[p].request.id == d.log.sent[q].id
    ensures d.log.sent[q].id in d.sites && d.sites[d.log.sent[q].id] == Done(Cancelled)
    ensures forall r :: 0 <= r < |d.log.sent| && d.log.sent[r] == d.log.sent[q] ==> r == q
  {
    assert WrittenOk(d.log.sent[q].id, d.log, d.accepted, d.sites, d.pc);
    p := d.log.wroteAt[d.log.sent[q].id];
  }

  lemma CancelIsOfDropped(c: Client, q: nat) returns (p: nat)
    requires ClientInv(c) && q < |c.d.log.sent| && c.d.log.sent[q].Cancel?
    ensures p < q && c.d.log.sent[p].Call? && c.d.log.sent[p].request.id == c.d.log.sent[q].id
    ensures forall r :: 0 <= r < |c.d.log.sent| && c.d.log.sent[r] == c.d.log.sent[q] ==> r == q
    ensures In(c, c.d.log.sent[q].id, CancelSent)
  {
    p := CancelIsLater(c.d, q);
  }

  /** A cancel is written at most once, after its request, and only for a call that was dropped. */
  lemma CancelFollowsRequest(c: Client, q: nat) returns (p: nat)
    requires Reachable(c) && q < |c.d.log.sent| && c.d.log.sent[q].Cancel?
    ensures p < q && c.d.log.sent[p].Call? && c.d.log.sent[p].request.id == c.d.log.sent[q].id
    ensures forall r :: 0 <= r < |c.d.log.sent| && c.d.log.sent[r] == c.d.log.sent[q] ==> r == q
    ensures In(c, c.d.log.sent[q].id, CancelSent)
  {
    ReachableInv(c);
    p := CancelIsOfDropped(c, q);
  }

  /** Ids are unique where the source insists on it: the insertion never finds the id taken. */
  lemma InsertNeverPanics(c: Client, key: Key)
    requires Reachable(c) && c.d.pc.Passed? && key !in c.d.flights.timers
    ensures Step(c.d, Insert(key)).Some?
    ensures c.d.flights.Agree() && |c.d.flights.slots| < c.d.max
  {
    ReachableInv(c);
    HandIsNotInFlight(c.d);
  }

  lemma HandIsNotInFlight(d: State)
    requires PlacesOk(d.accepted, d.sites, d.pending, d.flights.slots.Keys, d.pc) && d.pc.Passed?
    ensures d.pc.r.id !in d.flights.slots
  {
    InsertPlaces(d.accepted, d.sites, d.pending, d.flights.slots.Keys, d.pc);
  }

  /** A caller gets an answer of the server only if that answer carried its id. */
  lemma ResolvedIsHeard(c: Client, i: Id)
    requires ClientInv(c) && i in c.calls && c.calls[i].phase.Resolved?
    ensures c.calls[i].phase.outcome == Err(Shutdown) || Heard(i, c.calls[i].phase.outcome, c.d.received)
  {
    assert c.d.txs[i].Sent? ==> Heard(i, c.d.txs[i].value, c.d.received);
  }

  lemma AnswersAreRouted(c: Client, i: Id)
    requires Reachable(c) && i in c.calls && c.calls[i].phase.Resolved?
    ensures c.calls[i].phase.outcome.Ok? ==> Response(i, Ok(c.calls[i].phase.outcome.value)) in c.d.received
    ensures c.calls[i].phase.outcome.Err? && c.calls[i].phase.outcome.error.Server? ==>
              Response(i, Err(c.calls[i].phase.outcome.error.serverError)) in c.d.received
  {
    ReachableInv(c);
    ResolvedIsHeard(c, i);
  }

  // ------------------------------------------------------------------ fates

  /** What a caller is told is what happened. */
  ghost predicate ToldTruly(c: Client, i: Id, outcome: Outcome) {
    match outcome
    case Ok(x) => Response(i, Ok(x)) in c.d.received
    case Err(Server(e)) => Response(i, Err(e)) in c.d.received
    case Err(DeadlineExceeded) => i in c.calls && c.calls[i].req.deadline <= c.d.now
    case Err(Send(_)) =>
      forall p :: 0 <= p < |c.d.log.sent| && c.d.log.sent[p].Call? ==> c.d.log.sent[p].request.id != i
    case Err(Channel(e)) => c.d.terminal == Some(e)
    case Err(Shutdown) => c.d.life.Gone?
  }

  lemma ResolvedFate(c: Client, i: Id)
    requires Coherent(c) && i in c.calls && c.calls[i].phase.Resolved?
    ensures i in c.d.accepted && c.d.accepted[i] == c.calls[i].req
    ensures (c.calls[i].phase.outcome == Err(Shutdown) && c.d.life.Gone?)
         || (i in c.d.sites && c.d.sites[i] == Done(Completed(c.calls[i].phase.outcome)))
  {
    hide WireOk, Routed, LifeOk, CancelledOk, PermitsOk, RaceOk;
  }

  /**
   A caller told that its deadline passed, that its request could not be sent, or that the channel
   failed, is told the truth: the deadline is over, the request was never written, the error is the
   one the dispatcher recorded.
   */
  lemma OutcomesAreTrue(c: Client, i: Id)
    requires Reachable(c) && i in c.calls && c.calls[i].phase.Resolved?
    ensures ToldTruly(c, i, c.calls[i].phase.outcome)
  {
    ReachableInv(c);
    ResolvedFate(c, i);
    assert FateOk(c.d, i);
    hide Coherent;
    forall p: nat | p < |c.d.log.sent| && c.d.log.sent[p].Call? ensures c.d.log.sent[p].request.id in c.d.log.wroteAt {
      WrittenIsCalled(c, p);
    }
  }

  lemma CancelledFate(c: Client, i: Id)
    requires ClientInv(c) && i in c.d.sites && c.d.sites[i] == Done(Cancelled)
    ensures In(c, i, CancelSent) && Call(c.calls[i].req) in c.d.log.sent
    ensures Cancel(i) in c.d.log.sent || c.d.pc == Cancelling(i)
         || (c.d.terminal.Some? && c.d.terminal.value.WriteError?)
  {
    hide TxsOk, Routed, LifeOk, OutcomesOk, PermitsOk, RaceOk;
    assert FateOk(c.d, i);
    assert WrittenOk(i, c.d.log, c.d.accepted, c.d.sites, c.d.pc);
  }

  /**
   The converse of `CancelFollowsRequest`: a request taken out of flight by its caller's cancellation
   was written, and so is its cancel, unless that is what the dispatcher is about to do or failed to do.
   */
  lemma CancelledReachesTheWire(c: Client, i: Id)
    requires Reachable(c) && i in c.d.sites && c.d.sites[i] == Done(Cancelled)
    ensures In(c, i, CancelSent) && Call(c.calls[i].req) in c.d.log.sent
    ensures Cancel(i) in c.d.log.sent || c.d.pc == Cancelling(i)
         || (c.d.terminal.Some? && c.d.terminal.value.WriteError?)
  {
    ReachableInv(c);
    CancelledFate(c, i);
  }
}
