/** Every move of every party keeps the client's invariants. */
module ClientProofs {
  import opened Types
  import opened Flights
  import opened DispatchProtocol
  import opened DispatchProofs
  import opened ClientProtocol
  import opened ClientFates

  // ------------------------------------------------------------------ the dispatcher's moves

  // What the larger functions of the machine leave alone.

  lemma CompleteShape(d: State, i: Id, v: Outcome)
    ensures var n := Complete(d, i, v);
            && n == d.(flights := n.flights, txs := n.txs, sites := n.sites)
            && n.flights.slots.Keys == d.flights.slots.Keys - {i}
  {
  }

  lemma CancelEntryShape(d: State, i: Id)
    ensures var n := CancelEntry(d, i);
            && n == d.(flights := n.flights, txs := n.txs, sites := n.sites, pc := n.pc)
            && n.flights.slots.Keys == d.flights.slots.Keys - {i} && (n.pc == d.pc || n.pc.Cancelling?)
  {
  }

  lemma DrainHeadShape(d: State, e: ChannelError)
    requires d.pending != []
    ensures var n := DrainHead(d, e);
            n == d.(pending := n.pending, txs := n.txs, sites := n.sites)
  {
  }

  lemma DropAllShape(d: State)
    ensures var n := DropAll(d);
            && n == d.(pending := [], rxClosed := true, cancelQ := [], flights := NoFlights(), life := Gone,
                       txs := n.txs, sites := n.sites)
  {
  }

  /** What the dispatcher leaves to the callers. */
  lemma StepFrame(d: State, e: Event)
    requires Step(d, e).Some?
    ensures var n := Step(d, e).value;
            && n.closed == d.closed && n.accepted == d.accepted && n.reserved == d.reserved && n.open == d.open
            && (d.life.Gone? ==> n.life.Gone?) && (d.rxClosed ==> n.rxClosed)
  {
    hide Complete, CancelEntry, DrainHead, DropAll;
    match e {
      case Read(resp) => CompleteShape(d.(received := d.received + [resp]), resp.id, ToOutcome(resp.message));
      case SendFail(cause) => CompleteShape(d.(pc := Idle), d.pc.r.id, Err(Send(cause)));
      case TakeCancel => CancelEntryShape(d.(cancelQ := d.cancelQ[1..]), d.cancelQ[0]);
      case Expire(key) => CompleteShape(d, d.flights.timers[key].id, Err(DeadlineExceeded));
      case DrainFlight(i) => CompleteShape(d, i, Err(Channel(d.terminal.value)));
      case DrainRecv => DrainHeadShape(d, d.terminal.value);
      case Drop => DropAllShape(d);
      case _ =>
    }
  }

  lemma StepTakesCancels(d: State, e: Event)
    requires Step(d, e).Some?
    ensures forall i :: i in Step(d, e).value.cancelQ ==> i in d.cancelQ
  {
    hide Complete, CancelEntry, DrainHead, DropAll;
    match e {
      case Read(resp) => CompleteShape(d.(received := d.received + [resp]), resp.id, ToOutcome(resp.message));
      case SendFail(cause) => CompleteShape(d.(pc := Idle), d.pc.r.id, Err(Send(cause)));
      case TakeCancel => CancelEntryShape(d.(cancelQ := d.cancelQ[1..]), d.cancelQ[0]);
      case Expire(key) => CompleteShape(d, d.flights.timers[key].id, Err(DeadlineExceeded));
      case DrainFlight(i) => CompleteShape(d, i, Err(Channel(d.terminal.value)));
      case DrainRecv => DrainHeadShape(d, d.terminal.value);
      case Drop => DropAllShape(d);
      case _ =>
    }
  }

  /** Only the closed-check commits a request, and only a request whose receiver is still open. */
  lemma StepCommits(d: State, e: Event, n: State, i: Id)
    requires Step(d, e) == Some(n) && Committed(i, n.flights.slots.Keys, n.pc)
    requires d.pc.Inserted? ==> d.pc.r.id in d.flights.slots
    ensures Committed(i, d.flights.slots.Keys, d.pc) || (e.Pass? && i !in d.closed)
  {
    hide Complete, CancelEntry, DrainHead, DropAll;
    match e {
      case Read(resp) => CompleteShape(d.(received := d.received + [resp]), resp.id, ToOutcome(resp.message));
      case SendFail(cause) => CompleteShape(d.(pc := Idle), d.pc.r.id, Err(Send(cause)));
      case TakeCancel => CancelEntryShape(d.(cancelQ := d.cancelQ[1..]), d.cancelQ[0]);
      case Expire(key) => CompleteShape(d, d.flights.timers[key].id, Err(DeadlineExceeded));
      case DrainFlight(j) => CompleteShape(d, j, Err(Channel(d.terminal.value)));
      case DrainRecv => DrainHeadShape(d, d.terminal.value);
      case Drop => DropAllShape(d);
      case _ =>
    }
  }

  /** A cancellation that is taken leaves nothing of its request. */
  lemma StepKeepsCancel(d: State, e: Event, n: State, i: Id)
    requires Step(d, e) == Some(n) && Committed(i, n.flights.slots.Keys, n.pc) && i in d.cancelQ
    ensures i in n.cancelQ
  {
    hide Complete, CancelEntry, DrainHead, DropAll;
    match e {
      case Read(resp) => CompleteShape(d.(received := d.received + [resp]), resp.id, ToOutcome(resp.message));
      case SendFail(cause) => CompleteShape(d.(pc := Idle), d.pc.r.id, Err(Send(cause)));
      case TakeCancel => CancelEntryShape(d.(cancelQ := d.cancelQ[1..]), d.cancelQ[0]);
      case Expire(key) => CompleteShape(d, d.flights.timers[key].id, Err(DeadlineExceeded));
      case DrainFlight(j) => CompleteShape(d, j, Err(Channel(d.terminal.value)));
      case DrainRecv => DrainHeadShape(d, d.terminal.value);
      case Drop => DropAllShape(d);
      case _ =>
    }
  }

  // What they do to a sender that was used, and to the site of one request.

  lemma CompleteAt(d: State, i: Id, v: Outcome, j: Id)
    ensures var n := Complete(d, i, v);
            && (j in d.txs && !d.txs[j].Held? ==> j in n.txs && n.txs[j] == d.txs[j])
            && (j in n.sites && n.sites[j] == Done(Cancelled) ==> j in d.sites && d.sites[j] == Done(Cancelled))
  {
  }

  lemma CancelEntryAt(d: State, i: Id, j: Id)
    ensures var n := CancelEntry(d, i);
            && (j in d.txs && !d.txs[j].Held? ==> j in n.txs && n.txs[j] == d.txs[j])
            && (j in n.sites && n.sites[j] == Done(Cancelled) ==>
                  (j in d.sites && d.sites[j] == Done(Cancelled)) || (j == i && i in d.flights.slots))
  {
  }

  lemma DrainHeadAt(d: State, e: ChannelError, j: Id)
    requires d.pending != []
    ensures var n := DrainHead(d, e);
            && (j in d.txs && !d.txs[j].Held? ==> j in n.txs && n.txs[j] == d.txs[j])
            && (j in n.sites && n.sites[j] == Done(Cancelled) ==> j in d.sites && d.sites[j] == Done(Cancelled))
  {
  }

  lemma DropAllAt(d: State, j: Id)
    ensures var n := DropAll(d);
            && (j in d.txs && !d.txs[j].Held? ==> j in n.txs && n.txs[j] == d.txs[j])
            && (j in n.sites && n.sites[j] == Done(Cancelled) ==> j in d.sites && d.sites[j] == Done(Cancelled))
  {
  }

  lemma ExpireAt(d: State, key: Key, j: Id)
    requires Step(d, Expire(key)).Some?
    ensures var n := Step(d, Expire(key)).value;
            && (j in d.txs && !d.txs[j].Held? ==> j in n.txs && n.txs[j] == d.txs[j])
            && (j in n.sites && n.sites[j] == Done(Cancelled) ==> j in d.sites && d.sites[j] == Done(Cancelled))
  {
    CompleteAt(d, d.flights.timers[key].id, Err(DeadlineExceeded), j);
  }

  /** A sender that was used or dropped stays as it is: no second value is ever sent. */
  lemma StepSettles(d: State, e: Event, i: Id)
    requires Step(d, e).Some? && i in d.txs && !d.txs[i].Held?
    ensures i in Step(d, e).value.txs && Step(d, e).value.txs[i] == d.txs[i]
  {
    hide Complete, CancelEntry, DrainHead, DropAll, Deliver;
    match e {
      case Read(resp) => CompleteAt(d.(received := d.received + [resp]), resp.id, ToOutcome(resp.message), i);
      case SendFail(cause) => CompleteAt(d.(pc := Idle), d.pc.r.id, Err(Send(cause)), i);
      case TakeCancel => CancelEntryAt(d.(cancelQ := d.cancelQ[1..]), d.cancelQ[0], i);
      case Expire(key) => ExpireAt(d, key, i);
      case DrainFlight(j) => CompleteAt(d, j, Err(Channel(d.terminal.value)), i);
      case DrainRecv => DrainHeadAt(d, d.terminal.value, i);
      case Drop => DropAllAt(d, i);
      case _ =>
    }
  }

  /** Only a queued cancellation makes a request cancelled. */
  lemma StepCancels(d: State, e: Event, n: State, i: Id)
    requires Step(d, e) == Some(n) && i in n.sites && n.sites[i] == Done(Cancelled)
    requires i in d.flights.slots ==> i in d.sites
    ensures i in d.sites && (d.sites[i] == Done(Cancelled) || (i in d.cancelQ && i in d.flights.slots))
  {
    hide Complete, CancelEntry, DrainHead, DropAll;
    match e {
      case Read(resp) => CompleteAt(d.(received := d.received + [resp]), resp.id, ToOutcome(resp.message), i);
      case SendFail(cause) => CompleteAt(d.(pc := Idle), d.pc.r.id, Err(Send(cause)), i);
      case TakeCancel => CancelEntryAt(d.(cancelQ := d.cancelQ[1..]), d.cancelQ[0], i);
      case Expire(key) => ExpireAt(d, key, i);
      case DrainFlight(j) => CompleteAt(d, j, Err(Channel(d.terminal.value)), i);
      case DrainRecv => DrainHeadAt(d, d.terminal.value, i);
      case Drop => DropAllAt(d, i);
      case _ =>
    }
  }

  /** The race invariant over a dispatcher step: the check comes after the close, or the cancel is still queued. */
  lemma StepRace(c: Client, e: Event, n: State)
    requires RaceOk(c.calls, c.d.closed, c.d.cancelQ, c.d.flights.slots.Keys, c.d.pc)
    requires Step(c.d, e) == Some(n) && (c.d.pc.Inserted? ==> c.d.pc.r.id in c.d.flights.slots)
    requires n.closed == c.d.closed
    ensures RaceOk(c.calls, n.closed, n.cancelQ, n.flights.slots.Keys, n.pc)
  {
    forall i | i in n.closed && i in c.calls && Committed(i, n.flights.slots.Keys, n.pc)
      ensures c.calls[i].phase == Closing(false) || i in n.cancelQ
    {
      StepCommits(c.d, e, n, i);
      if i in c.d.cancelQ {
        StepKeepsCancel(c.d, e, n, i);
      }
    }
  }

  lemma StepCancelled(c: Client, e: Event, n: State)
    requires CancelledOk(c.calls, c.d.cancelQ, c.d.sites) && Step(c.d, e) == Some(n)
    requires PlacesOk(c.d.accepted, c.d.sites, c.d.pending, c.d.flights.slots.Keys, c.d.pc)
    requires CallsOk(c.calls, c.next, c.d.closed, c.d.accepted)
    requires forall i :: i in n.cancelQ ==> i in c.d.cancelQ
    ensures CancelledOk(c.calls, n.cancelQ, n.sites)
  {
    forall i | i in n.sites && n.sites[i] == Done(Cancelled) ensures i in c.calls && c.calls[i].phase.CancelSent? {
      StepCancels(c.d, e, n, i);
    }
  }

  lemma StepOutcomes(calls: map<Id, Caller>, d: State, e: Event, n: State)
    requires OutcomesOk(calls, d.txs, d.life.Gone?) && Step(d, e) == Some(n) && (d.life.Gone? ==> n.life.Gone?)
    ensures OutcomesOk(calls, n.txs, n.life.Gone?)
  {
    forall i | i in calls && calls[i].phase.Resolved?
      ensures i in n.txs && n.txs[i] == d.txs[i]
    {
      StepSettles(d, e, i);
    }
  }

  lemma InvPlaces(d: State)
    requires Inv(d)
    ensures PlacesOk(d.accepted, d.sites, d.pending, d.flights.slots.Keys, d.pc)
    ensures d.pc.Inserted? ==> d.pc.r.id in d.flights.slots
  {
  }

  lemma PermitsStill(calls: map<Id, Caller>, reserved: set<Id>, open: bool, rxClosed: bool, rxClosed': bool)
    requires PermitsOk(calls, reserved, open, rxClosed) && (rxClosed ==> rxClosed')
    ensures PermitsOk(calls, reserved, open, rxClosed')
  {
  }

  lemma DispatchInv(c: Client, e: Event)
    requires Coherent(c) && Next(c, Dispatch(e)).Some?
    ensures Coherent(Next(c, Dispatch(e)).value)
  {
    hide Step, Inv, CallsOk, OutcomesOk, CancelledOk, PermitsOk, RaceOk, PlacesOk;
    var n := Step(c.d, e).value;
    StepInv(c.d, e);
    StepFrame(c.d, e);
    StepTakesCancels(c.d, e);
    InvPlaces(c.d);
    PermitsStill(c.calls, c.d.reserved, c.d.open, c.d.rxClosed, n.rxClosed);
    StepRace(c, e, n);
    StepCancelled(c, e, n);
    StepOutcomes(c.calls, c.d, e, n);
  }

  // ------------------------------------------------------------------ the callers' moves

  /** Handing a request over adds it to the queue and to the history. */
  lemma PushPlaces(accepted: map<Id, Request>, sites: Sites, pending: seq<Request>, fly: set<Id>, pc: Pc,
                   r: Request, site: Site)
    requires PlacesOk(accepted, sites, pending, fly, pc) && r.id !in accepted
    requires site == Queued || site == Done(Discarded)
    ensures PlacesOk(accepted[r.id := r], sites[r.id := site],
                     if site.Queued? then pending + [r] else pending, fly, pc)
  {
    var pending' := if site.Queued? then pending + [r] else pending;
    forall i | InQueue(pending, i) ensures InQueue(pending', i) {
      var p :| 0 <= p < |pending| && pending[p].id == i;
      assert pending'[p].id == i;
    }
    assert site.Queued? ==> pending'[|pending|].id == r.id;
  }

  lemma PushWire(log: Log, accepted: map<Id, Request>, sites: Sites, pc: Pc, r: Request, site: Site)
    requires WireOk(log, accepted, sites, pc) && r.id !in accepted && r.id !in sites
    requires site == Queued || site == Done(Discarded)
    requires pc.Inserted? ==> pc.r.id in accepted
    ensures WireOk(log, accepted[r.id := r], sites[r.id := site], pc)
  {
    var accepted', sites' := accepted[r.id := r], sites[r.id := site];
    forall j ensures WrittenOk(j, log, accepted', sites', pc) {
      assert WrittenOk(j, log, accepted, sites, pc);
    }
  }

  lemma PushTxs(sites: Sites, txs: Txs, closed: set<Id>, gone: bool, received: seq<Response>, i: Id)
    requires TxsOk(sites, txs, closed, gone) && i !in sites && Routed(txs, received)
    ensures gone ==>
              TxsOk(sites[i := Done(Discarded)], txs[i := Dropped], closed, gone) && Routed(txs[i := Dropped], received)
    ensures TxsOk(sites[i := Queued], txs[i := Held], closed, gone) && Routed(txs[i := Held], received)
  {
  }

  lemma PushInv(d: State, r: Request)
    requires Inv(d) && r.id !in d.accepted && r.id in d.reserved
    ensures Inv(Push(d, r.id, r))
  {
    var site := if d.life.Gone? then Done(Discarded) else Queued;
    PushPlaces(d.accepted, d.sites, d.pending, d.flights.slots.Keys, d.pc, r, site);
    PushWire(d.log, d.accepted, d.sites, d.pc, r, site);
    PushTxs(d.sites, d.txs, d.closed, d.life.Gone?, d.received, r.id);
  }

  lemma CloseTxs(sites: Sites, txs: Txs, closed: set<Id>, gone: bool, cancelQ: seq<Id>, i: Id)
    requires TxsOk(sites, txs, closed, gone) && CancelsOk(cancelQ, closed)
    ensures TxsOk(sites, txs, closed + {i}, gone) && CancelsOk(cancelQ, closed + {i})
  {
  }

  lemma CloseInv(d: State, i: Id)
    requires Inv(d)
    ensures Inv(Close(d, i))
  {
    CloseTxs(d.sites, d.txs, d.closed, d.life.Gone?, d.cancelQ, i);
  }

  function Put(calls: map<Id, Caller>, i: Id, phase: Phase): map<Id, Caller>
    requires i in calls
  {
    calls[i := calls[i].(phase := phase)]
  }

  // A call changes phase: each invariant on its own.

  lemma PutCalls(calls: map<Id, Caller>, next: nat, closed: set<Id>, accepted: map<Id, Request>,
                 i: Id, phase: Phase, closed': set<Id>, accepted': map<Id, Request>)
    requires CallsOk(calls, next, closed, accepted) && i in calls
    requires closed' == closed || closed' == closed + {i}
    requires accepted' == accepted || accepted' == accepted[i := calls[i].req]
    requires PhaseOk(phase, i in accepted', i in closed')
    ensures CallsOk(Put(calls, i, phase), next, closed', accepted')
  {
  }

  lemma PutOutcomes(calls: map<Id, Caller>, txs: Txs, gone: bool, i: Id, phase: Phase, txs': Txs)
    requires OutcomesOk(calls, txs, gone) && i in calls && !calls[i].phase.Resolved?
    requires txs' == txs || (i in txs' && i !in txs && txs' == txs[i := txs'[i]])
    requires phase.Resolved? ==>
               i in txs && (txs[i] == Sent(phase.outcome)
                     || (txs[i].Dropped? && phase.outcome == Err(Shutdown) && gone))
    ensures OutcomesOk(Put(calls, i, phase), txs', gone)
  {
  }

  lemma PutQueues(calls: map<Id, Caller>, cancelQ: seq<Id>, sites: Sites, reserved: set<Id>, open: bool, rxClosed: bool,
                  i: Id, phase: Phase, cancelQ': seq<Id>, sites': Sites, reserved': set<Id>)
    requires CancelledOk(calls, cancelQ, sites) && PermitsOk(calls, reserved, open, rxClosed)
    requires i in calls && calls[i].phase.Active() && (phase.TurnedAway() ==> rxClosed)
    requires cancelQ' == cancelQ || (cancelQ' == cancelQ + [i] && (phase.CancelSent? || phase.Failed?))
    requires reserved' == if phase.Reserved? then reserved + {i} else reserved - {i}
    requires sites' == sites || (i in sites' && sites'[i] != Done(Cancelled) && sites' == sites[i := sites'[i]])
    ensures CancelledOk(Put(calls, i, phase), cancelQ', sites')
          && PermitsOk(Put(calls, i, phase), reserved', open, rxClosed)
  {
  }

  lemma PutRace(calls: map<Id, Caller>, closed: set<Id>, cancelQ: seq<Id>, fly: set<Id>, pc: Pc,
                i: Id, phase: Phase, closed': set<Id>, cancelQ': seq<Id>)
    requires RaceOk(calls, closed, cancelQ, fly, pc) && i in calls
    requires closed' == closed || closed' == closed + {i}
    requires cancelQ' == cancelQ || cancelQ' == cancelQ + [i]
    requires i in closed' && Committed(i, fly, pc) ==> phase == Closing(false) || i in cancelQ'
    ensures RaceOk(Put(calls, i, phase), closed', cancelQ', fly, pc)
  {
  }

  /** Only accepted requests are ever committed. */
  lemma CommittedIsAccepted(d: State, i: Id)
    requires PlacesOk(d.accepted, d.sites, d.pending, d.flights.slots.Keys, d.pc)
    requires TxsOk(d.sites, d.txs, d.closed, d.life.Gone?)
    requires Committed(i, d.flights.slots.Keys, d.pc)
    ensures i in d.accepted && i in d.txs && d.txs[i].Held?
  {
  }

  lemma InvCommitted(d: State, i: Id)
    requires Inv(d)
    ensures Committed(i, d.flights.slots.Keys, d.pc) ==>
              i in d.accepted && i in d.txs && d.txs[i].Held? && !d.life.Gone?
  {
    hide WireOk, Routed, CancelsOk;
    if Committed(i, d.flights.slots.Keys, d.pc) {
      CommittedIsAccepted(d, i);
    }
  }

  /** An accepted caller that has not closed loses its sender only to the end of the dispatcher. */
  lemma InvGone(d: State, i: Id)
    requires Inv(d) && i in d.txs && i !in d.closed
    ensures d.txs[i].Dropped? ==> d.life.Gone?
  {
    hide PlacesOk, CancelsOk, WireOk, Routed;
  }

  lemma InvNew(d: State, i: Id)
    requires Inv(d) && i !in d.accepted
    ensures i !in d.txs && i !in d.sites
  {
    hide CancelsOk, WireOk, Routed;
  }

  lemma PushCancelInv(d: State, i: Id)
    requires Inv(d) && i in d.closed
    ensures Inv(PushCancel(d, i))
  {
    hide PlacesOk, TxsOk, WireOk, Routed;
  }

  lemma ReserveInv(d: State, i: Id)
    requires Inv(d) && !d.rxClosed
    ensures Inv(d.(reserved := d.reserved + {i}))
  {
    hide PlacesOk, TxsOk, CancelsOk, WireOk, Routed;
  }

  lemma PutInv(c: Client, i: Id, phase: Phase, d: State)
    requires CallersInv(c) && i in c.calls && c.calls[i].phase.Active()
    requires d.closed == c.d.closed || d.closed == c.d.closed + {i}
    requires d.accepted == c.d.accepted || d.accepted == c.d.accepted[i := c.calls[i].req]
    requires PhaseOk(phase, i in d.accepted, i in d.closed)
    requires d.txs == c.d.txs || (i in d.txs && i !in c.d.txs && d.txs == c.d.txs[i := d.txs[i]])
    requires phase.Resolved? ==>
               && i in c.d.txs
               && (c.d.txs[i] == Sent(phase.outcome)
                     || (c.d.txs[i].Dropped? && phase.outcome == Err(Shutdown) && c.d.life.Gone?))
    requires d.cancelQ == c.d.cancelQ || (d.cancelQ == c.d.cancelQ + [i] && (phase.CancelSent? || phase.Failed?))
    requires d.reserved == if phase.Reserved? then c.d.reserved + {i} else c.d.reserved - {i}
    requires d.sites == c.d.sites
          || (i in d.sites && d.sites[i] != Done(Cancelled) && d.sites == c.d.sites[i := d.sites[i]])
    requires d.flights == c.d.flights && d.pc == c.d.pc && d.life == c.d.life
    requires d.open == c.d.open && d.rxClosed == c.d.rxClosed
    requires phase.TurnedAway() ==> c.d.rxClosed
    requires i in d.closed && Committed(i, d.flights.slots.Keys, d.pc) ==> phase == Closing(false) || i in d.cancelQ
    ensures CallersInv(To(c, i, phase, d))
  {
    PutCalls(c.calls, c.next, c.d.closed, c.d.accepted, i, phase, d.closed, d.accepted);
    PutOutcomes(c.calls, c.d.txs, c.d.life.Gone?, i, phase, d.txs);
    PutQueues(c.calls, c.d.cancelQ, c.d.sites, c.d.reserved, c.d.open, c.d.rxClosed, i, phase,
              d.cancelQ, d.sites, d.reserved);
    PutRace(c.calls, c.d.closed, c.d.cancelQ, c.d.flights.slots.Keys, c.d.pc, i, phase, d.closed, d.cancelQ);
  }

  /** Only a call in phase Reserved holds a permit. */
  lemma NoPermit(c: Client, i: Id)
    requires PermitsOk(c.calls, c.d.reserved, c.d.open, c.d.rxClosed) && i in c.calls && !c.calls[i].phase.Reserved?
    ensures c.d.reserved - {i} == c.d.reserved
  {
  }

  lemma EnterInv(c: Client, m: Move)
    requires Coherent(c) && (m.Reserve? || m.Enqueue?) && Next(c, m).Some?
    ensures Coherent(Next(c, m).value)
  {
    hide Inv, OutcomesOk, CancelledOk, RaceOk;
    InvCommitted(c.d, m.id);
    if m.Reserve? {
      ReserveInv(c.d, m.id);
      PutInv(c, m.id, Reserved, c.d.(reserved := c.d.reserved + {m.id}));
    } else {
      PushInv(c.d, c.calls[m.id].req);
      InvNew(c.d, m.id);
      PutInv(c, m.id, Waiting, Push(c.d, m.id, c.calls[m.id].req));
    }
  }

  lemma LeaveInv(c: Client, m: Move)
    requires Coherent(c) && (m.Refuse? || m.Leak?) && Next(c, m).Some?
    ensures Coherent(Next(c, m).value)
  {
    hide Inv, OutcomesOk, CancelledOk, RaceOk;
    NoPermit(c, m.id);
    InvCommitted(c.d, m.id);
    PutInv(c, m.id, if m.Refuse? then Refused else Leaked, c.d);
  }

  /** Closing a guard: an uncommitted call is closed for good, a committed one owes a cancel. */
  lemma CloseGuardInv(c: Client, i: Id)
    requires Coherent(c) && Next(c, CloseGuard(i)).Some?
    ensures Coherent(Next(c, CloseGuard(i)).value)
  {
    hide Inv, OutcomesOk, CancelledOk, RaceOk;
    NoPermit(c, i);
    CloseInv(c.d, i);
    InvCommitted(c.d, i);
    PutInv(c, i, Closing(c.calls[i].phase.Refused?), Close(c.d, i));
  }

  lemma CancelGuardInv(c: Client, i: Id)
    requires Coherent(c) && Next(c, CancelGuard(i)).Some?
    ensures Coherent(Next(c, CancelGuard(i)).value)
  {
    hide Inv, OutcomesOk, CancelledOk, RaceOk;
    NoPermit(c, i);
    InvCommitted(c.d, i);
    PushCancelInv(c.d, i);
    PutInv(c, i, if c.calls[i].phase.refused then Failed else CancelSent, PushCancel(c.d, i));
  }

  lemma ResolveInv(c: Client, i: Id)
    requires Coherent(c) && Next(c, Resolve(i)).Some?
    ensures Coherent(Next(c, Resolve(i)).value)
  {
    hide Inv, OutcomesOk, CancelledOk, RaceOk;
    NoPermit(c, i);
    CloseInv(c.d, i);
    InvCommitted(c.d, i);
    InvGone(c.d, i);
    PutInv(c, i, Resolved(if c.d.txs[i].Sent? then c.d.txs[i].value else Err(Shutdown)), Close(c.d, i));
  }

  lemma StartInv(c: Client, m: Move)
    requires CallersInv(c) && m.StartCall? && Next(c, m).Some?
    ensures CallersInv(Next(c, m).value)
  {
    var calls' := Next(c, m).value.calls;
    assert c.next !in c.calls;
    assert RaceOk(calls', c.d.closed, c.d.cancelQ, c.d.flights.slots.Keys, c.d.pc);
  }

  lemma ChannelInv(c: Client, m: Move)
    requires CallersInv(c) && (m.DropChannel? || m.Tick?) && Next(c, m).Some?
    ensures CallersInv(Next(c, m).value)
  {
  }

  lemma NextCoherent(c: Client, m: Move)
    requires Coherent(c) && Next(c, m).Some?
    ensures Coherent(Next(c, m).value)
  {
    match m {
      case Reserve(_) => EnterInv(c, m);
      case Enqueue(_) => EnterInv(c, m);
      case Refuse(_) => LeaveInv(c, m);
      case Leak(_) => LeaveInv(c, m);
      case CloseGuard(i) => CloseGuardInv(c, i);
      case CancelGuard(i) => CancelGuardInv(c, i);
      case Resolve(i) => ResolveInv(c, i);
      case Dispatch(e) => DispatchInv(c, e);
      case StartCall(_, _) => StartInv(c, m);
      case DropChannel => ChannelInv(c, m);
      case Tick(_) => ChannelInv(c, m);
    }
  }

  /** Every move of every caller and of the dispatcher keeps the client's invariants. */
  lemma NextInv(c: Client, m: Move)
    requires ClientInv(c) && Next(c, m).Some?
    ensures ClientInv(Next(c, m).value)
  {
    hide Coherent, FateOk, Next;
    NextCoherent(c, m);
    forall i ensures FateOk(Next(c, m).value.d, i) {
      NextFate(c, m, i);
    }
  }
}
