/** Every step of the dispatcher keeps its invariants, whatever the callers do in between. */
module DispatchProofs {
  import opened Types
  import opened Flights
  import opened DispatchProtocol

  // ------------------------------------------------------------------ moves between places

  /** The dispatcher may be done with `i` at this point. */
  ghost predicate Lets(pc: Pc, pc': Pc, i: Id, fate: Fate) {
    || (pc' == pc && pc.Idle?)
    || (pc' == Idle && (pc.Received? || pc.Inserted?) && pc.r.id == i)
    || (pc.Idle? && pc' == Cancelling(i) && fate == Cancelled)
  }

  lemma SettlePlaces(accepted: map<Id, Request>, sites: Sites, pending: seq<Request>, fly: set<Id>, pc: Pc,
                     i: Id, fate: Fate, pc': Pc)
    requires PlacesOk(accepted, sites, pending, fly, pc) && Lets(pc, pc', i, fate)
    requires i in sites && (sites[i].Flying? || sites[i].InHand?)
    ensures PlacesOk(accepted, sites[i := Done(fate)], pending, fly - {i}, pc')
  {
    assert forall p :: 0 <= p < |pending| ==> pending[p].id != i;
  }

  lemma QueueTail(pending: seq<Request>)
    requires pending != []
    ensures forall i :: InQueue(pending, i) && i != pending[0].id ==> InQueue(pending[1..], i)
  {
    forall i | InQueue(pending, i) && i != pending[0].id ensures InQueue(pending[1..], i) {
      var p :| 0 <= p < |pending| && pending[p].id == i;
      assert pending[1..][p - 1].id == i;
    }
  }

  lemma TailPlaces(accepted: map<Id, Request>, sites: Sites, pending: seq<Request>, site: Site)
    requires pending != []
    requires forall p :: 0 <= p < |pending| ==> At(accepted, sites, pending[p], Queued)
    requires forall p, q :: 0 <= p < q < |pending| ==> pending[p].id != pending[q].id
    ensures var rest, sites' := pending[1..], sites[pending[0].id := site];
            && (forall p :: 0 <= p < |rest| ==> At(accepted, sites', rest[p], Queued))
            && (forall p, q :: 0 <= p < q < |rest| ==> rest[p].id != rest[q].id)
  {
  }

  lemma SettleHead(accepted: map<Id, Request>, sites: Sites, pending: seq<Request>, fly: set<Id>, pc: Pc, fate: Fate)
    requires PlacesOk(accepted, sites, pending, fly, pc) && pending != [] && pc.Idle?
    ensures PlacesOk(accepted, sites[pending[0].id := Done(fate)], pending[1..], fly, pc)
  {
    hide InQueue;
    QueueTail(pending);
    TailPlaces(accepted, sites, pending, Done(fate));
    var sites' := sites[pending[0].id := Done(fate)];
    forall i | i in sites' ensures i in accepted && SiteOk(sites'[i], i, pending[1..], fly, pc) {
    }
  }

  lemma RecvPlaces(accepted: map<Id, Request>, sites: Sites, pending: seq<Request>, fly: set<Id>, pc: Pc)
    requires PlacesOk(accepted, sites, pending, fly, pc) && pending != [] && pc.Idle?
    ensures PlacesOk(accepted, sites[pending[0].id := InHand], pending[1..], fly, Received(pending[0]))
  {
    hide InQueue;
    QueueTail(pending);
    TailPlaces(accepted, sites, pending, InHand);
    var sites' := sites[pending[0].id := InHand];
    forall i | i in sites' ensures i in accepted && SiteOk(sites'[i], i, pending[1..], fly, Received(pending[0])) {
    }
  }

  lemma InsertPlaces(accepted: map<Id, Request>, sites: Sites, pending: seq<Request>, fly: set<Id>, pc: Pc)
    requires PlacesOk(accepted, sites, pending, fly, pc) && pc.Passed?
    ensures pc.r.id !in fly
    ensures PlacesOk(accepted, sites[pc.r.id := Flying], pending, fly + {pc.r.id}, Inserted(pc.r))
  {
    assert forall p :: 0 <= p < |pending| ==> pending[p].id != pc.r.id;
  }

  // ------------------------------------------------------------------ senders

  lemma DeliverTxs(sites: Sites, txs: Txs, closed: set<Id>, gone: bool, received: seq<Response>, i: Id, v: Outcome)
    requires TxsOk(sites, txs, closed, gone) && Routed(txs, received)
    requires i in sites && !sites[i].Done? && Heard(i, v, received)
    ensures TxsOk(sites[i := Done(Completed(v))], Deliver(txs, closed, i, v), closed, gone)
    ensures Routed(Deliver(txs, closed, i, v), received)
  {
  }

  lemma DiscardTxs(sites: Sites, txs: Txs, closed: set<Id>, gone: bool, received: seq<Response>, i: Id, fate: Fate)
    requires TxsOk(sites, txs, closed, gone) && Routed(txs, received)
    requires i in sites && !sites[i].Done? && i in closed && (fate.Cancelled? || fate.Aborted?)
    ensures TxsOk(sites[i := Done(fate)], Discard(txs, i), closed, gone)
    ensures Routed(Discard(txs, i), received)
  {
  }

  lemma MoveTxs(sites: Sites, txs: Txs, closed: set<Id>, gone: bool, i: Id, site: Site)
    requires TxsOk(sites, txs, closed, gone) && i in sites && !sites[i].Done? && !site.Done?
    ensures TxsOk(sites[i := site], txs, closed, gone)
  {
  }

  // ------------------------------------------------------------------ the wire

  lemma WireAt(log: Log, accepted: map<Id, Request>, sites: Sites, pc: Pc, i: Id)
    requires WireOk(log, accepted, sites, pc)
    ensures WrittenOk(i, log, accepted, sites, pc)
  {
  }

  /** Moving an unwritten request, or settling any, leaves the log in order. */
  lemma MoveWire(log: Log, accepted: map<Id, Request>, sites: Sites, pc: Pc, i: Id, site: Site, pc': Pc)
    requires WireOk(log, accepted, sites, pc)
    requires i in sites && i in accepted && accepted[i].id == i && !sites[i].Done?
    requires site.Done? || (i !in log.wroteAt && (site.Flying? ==> pc' == Inserted(accepted[i])))
    requires pc.Inserted? ==> pc.r == accepted[i] && site.Done?
    requires !pc.Cancelling?
    requires pc'.Inserted? ==> pc'.r == accepted[i] && site.Flying?
    requires pc'.Cancelling? ==> pc'.id == i && i in log.wroteAt
    requires forall j :: j in accepted ==> accepted[j].id == j
    ensures WireOk(log, accepted, sites[i := site], pc')
  {
    var sites' := sites[i := site];
    forall j ensures WrittenOk(j, log, accepted, sites', pc') {
      assert WrittenOk(j, log, accepted, sites, pc);
    }
  }

  lemma SendWire(log: Log, accepted: map<Id, Request>, sites: Sites, pc: Pc)
    requires WireOk(log, accepted, sites, pc)
    requires pc.Inserted? && At(accepted, sites, pc.r, Flying)
    requires forall j :: j in accepted ==> accepted[j].id == j
    ensures WireOk(log.WriteCall(pc.r), accepted, sites, Idle)
  {
    assert WrittenOk(pc.r.id, log, accepted, sites, pc);
    var log' := log.WriteCall(pc.r);
    forall j ensures WrittenOk(j, log', accepted, sites, Idle) {
      assert WrittenOk(j, log, accepted, sites, pc);
    }
  }

  lemma CancelWire(log: Log, accepted: map<Id, Request>, sites: Sites, pc: Pc)
    requires WireOk(log, accepted, sites, pc)
    requires pc.Cancelling? && pc.id in sites && sites[pc.id] == Done(Cancelled)
    ensures WireOk(log.WriteCancel(pc.id), accepted, sites, Idle)
  {
    assert WrittenOk(pc.id, log, accepted, sites, pc);
    var log' := log.WriteCancel(pc.id);
    forall j ensures WrittenOk(j, log', accepted, sites, Idle) {
      assert WrittenOk(j, log, accepted, sites, pc);
    }
  }

  /** Steps of the dispatcher that neither insert nor write. */
  lemma PcWire(log: Log, accepted: map<Id, Request>, sites: Sites, pc: Pc, pc': Pc)
    requires WireOk(log, accepted, sites, pc) && !pc.Inserted? && !pc'.Inserted? && !pc'.Cancelling?
    ensures WireOk(log, accepted, sites, pc')
  {
    forall j ensures WrittenOk(j, log, accepted, sites, pc') {
      assert WrittenOk(j, log, accepted, sites, pc);
    }
  }

  // ------------------------------------------------------------------ one step

  /** An in-flight request is settled: map, places and log. */
  lemma SettleFlight(d: State, i: Id, fate: Fate, pc': Pc)
    requires d.flights.Agree() && PlacesOk(d.accepted, d.sites, d.pending, d.flights.slots.Keys, d.pc)
    requires WireOk(d.log, d.accepted, d.sites, d.pc)
    requires i in d.flights.slots && Lets(d.pc, pc', i, fate)
    ensures i in d.sites && !d.sites[i].Done?
    ensures PlacesOk(d.accepted, d.sites[i := Done(fate)], d.pending, d.flights.Remove(i).slots.Keys, pc')
    ensures WireOk(d.log, d.accepted, d.sites[i := Done(fate)], pc')
    ensures d.flights.Remove(i).Agree() && |d.flights.Remove(i).slots| < |d.flights.slots|
  {
    RemoveAgrees(d.flights, i);
    SettlePlaces(d.accepted, d.sites, d.pending, d.flights.slots.Keys, d.pc, i, fate, pc');
    assert WrittenOk(i, d.log, d.accepted, d.sites, d.pc);
    MoveWire(d.log, d.accepted, d.sites, d.pc, i, Done(fate), pc');
  }

  /** `complete_request` keeps the invariants, provided a server's answer was really received. */
  lemma CompleteInv(d: State, i: Id, v: Outcome)
    requires Inv(d) && (d.pc.Idle? || (d.pc.Inserted? && d.pc.r.id == i))
    requires Heard(i, v, d.received)
    ensures Inv(Complete(d.(pc := Idle), i, v))
  {
    if i in d.flights.slots {
      SettleFlight(d, i, Completed(v), Idle);
      DeliverTxs(d.sites, d.txs, d.closed, d.life.Gone?, d.received, i, v);
    }
  }

  lemma CancelEntryInv(d: State, i: Id)
    requires Inv(d) && Live(d) && i in d.closed
    ensures Inv(CancelEntry(d, i))
  {
    if i in d.flights.slots {
      SettleFlight(d, i, Cancelled, Cancelling(i));
      DiscardTxs(d.sites, d.txs, d.closed, d.life.Gone?, d.received, i, Cancelled);
      assert WrittenOk(i, d.log, d.accepted, d.sites, d.pc);
    }
  }

  lemma ReadInv(d: State, resp: Response)
    requires Inv(d) && Step(d, Read(resp)).Some?
    ensures Inv(Step(d, Read(resp)).value)
  {
    CompleteInv(d.(received := d.received + [resp]), resp.id, ToOutcome(resp.message));
  }

  lemma ExpireInv(d: State, key: Key)
    requires Inv(d) && Step(d, Expire(key)).Some?
    ensures Inv(Step(d, Expire(key)).value)
  {
    ExpireIsRemove(d.flights, key);
    CompleteInv(d, d.flights.timers[key].id, Err(DeadlineExceeded));
  }

  lemma RecvInv(d: State)
    requires Inv(d) && Step(d, Recv).Some?
    ensures Inv(Step(d, Recv).value)
  {
    var i := d.pending[0].id;
    RecvPlaces(d.accepted, d.sites, d.pending, d.flights.slots.Keys, d.pc);
    MoveTxs(d.sites, d.txs, d.closed, d.life.Gone?, i, InHand);
    assert WrittenOk(i, d.log, d.accepted, d.sites, d.pc);
    MoveWire(d.log, d.accepted, d.sites, d.pc, i, InHand, Received(d.pending[0]));
  }

  lemma AbortInv(d: State)
    requires Inv(d) && Step(d, Abort).Some?
    ensures Inv(Step(d, Abort).value)
  {
    var i := d.pc.r.id;
    SettlePlaces(d.accepted, d.sites, d.pending, d.flights.slots.Keys, d.pc, i, Aborted, Idle);
    assert d.flights.slots.Keys - {i} == d.flights.slots.Keys;
    DiscardTxs(d.sites, d.txs, d.closed, d.life.Gone?, d.received, i, Aborted);
    MoveWire(d.log, d.accepted, d.sites, d.pc, i, Done(Aborted), Idle);
  }

  lemma InsertInv(d: State, key: Key)
    requires Inv(d) && Step(d, Insert(key)).Some?
    ensures Inv(Step(d, Insert(key)).value)
  {
    hide TxsOk, Routed, CancelsOk, WireOk, InQueue;
    var r := d.pc.r;
    var f := d.flights.Insert(r.id, r.deadline, key, ExpiryOf(d.now, r.deadline));
    InsertAgrees(d.flights, r.id, r.deadline, key, ExpiryOf(d.now, r.deadline));
    InsertPlaces(d.accepted, d.sites, d.pending, d.flights.slots.Keys, d.pc);
    assert f.slots.Keys == d.flights.slots.Keys + {r.id};
    MoveTxs(d.sites, d.txs, d.closed, d.life.Gone?, r.id, Flying);
    WireAt(d.log, d.accepted, d.sites, d.pc, r.id);
    MoveWire(d.log, d.accepted, d.sites, d.pc, r.id, Flying, Inserted(r));
  }

  lemma WriteInv(d: State, e: Event)
    requires Inv(d) && (e == SendOk || e == CancelOk) && Step(d, e).Some?
    ensures Inv(Step(d, e).value)
  {
    if e == SendOk {
      SendWire(d.log, d.accepted, d.sites, d.pc);
    } else {
      CancelWire(d.log, d.accepted, d.sites, d.pc);
    }
  }

  lemma DrainRecvInv(d: State)
    requires Inv(d) && Step(d, DrainRecv).Some?
    ensures Inv(Step(d, DrainRecv).value)
  {
    var i := d.pending[0].id;
    var v := Err(Channel(d.terminal.value));
    var fate := if i in d.closed then Aborted else Completed(v);
    SettleHead(d.accepted, d.sites, d.pending, d.flights.slots.Keys, d.pc, fate);
    if i in d.closed {
      DiscardTxs(d.sites, d.txs, d.closed, d.life.Gone?, d.received, i, fate);
    } else {
      DeliverTxs(d.sites, d.txs, d.closed, d.life.Gone?, d.received, i, v);
    }
    MoveWire(d.log, d.accepted, d.sites, d.pc, i, Done(fate), d.pc);
  }

  /** The dispatcher owns exactly the senders of the accepted requests it is not done with. */
  lemma OwnsUnsettled(d: State)
    requires PlacesOk(d.accepted, d.sites, d.pending, d.flights.slots.Keys, d.pc) && d.pc.Idle?
    ensures forall i :: Owns(d, i) <==> i in d.sites && !d.sites[i].Done?
  {
  }

  lemma DropPlaces(d: State)
    requires PlacesOk(d.accepted, d.sites, d.pending, d.flights.slots.Keys, d.pc)
    requires forall i :: Owns(d, i) <==> i in d.sites && !d.sites[i].Done?
    ensures PlacesOk(d.accepted, DropAll(d).sites, [], {}, Idle)
  {
  }

  lemma DropTxs(d: State)
    requires TxsOk(d.sites, d.txs, d.closed, d.life.Gone?) && !d.life.Gone?
    requires forall i :: Owns(d, i) <==> i in d.sites && !d.sites[i].Done?
    ensures TxsOk(DropAll(d).sites, DropAll(d).txs, d.closed, true)
    ensures Routed(d.txs, d.received) ==> Routed(DropAll(d).txs, d.received)
  {
  }

  lemma DropWire(d: State)
    requires WireOk(d.log, d.accepted, d.sites, d.pc) && d.pc.Idle?
    requires forall i :: Owns(d, i) <==> i in d.sites && !d.sites[i].Done?
    ensures WireOk(d.log, d.accepted, DropAll(d).sites, Idle)
  {
    var sites' := DropAll(d).sites;
    forall j ensures WrittenOk(j, d.log, d.accepted, sites', Idle) {
      assert WrittenOk(j, d.log, d.accepted, d.sites, d.pc);
      assert Owns(d, j) <==> j in d.sites && !d.sites[j].Done?;
    }
  }

  lemma DropInv(d: State)
    requires Inv(d) && Step(d, Drop).Some?
    ensures Inv(Step(d, Drop).value)
  {
    OwnsUnsettled(d);
    DropPlaces(d);
    DropTxs(d);
    DropWire(d);
  }

  lemma PcInv(d: State, e: Event)
    requires Inv(d) && (e.Pass? || e.CancelFail?) && Step(d, e).Some?
    ensures Inv(Step(d, e).value)
  {
    PcWire(d.log, d.accepted, d.sites, d.pc, Step(d, e).value.pc);
  }

  lemma TakeCancelInv(d: State)
    requires Inv(d) && Step(d, TakeCancel).Some?
    ensures Inv(Step(d, TakeCancel).value)
  {
    CancelEntryInv(d.(cancelQ := d.cancelQ[1..]), d.cancelQ[0]);
  }

  /** The dispatcher's invariants hold after every step it can take. */
  lemma StepInv(d: State, e: Event)
    requires Inv(d) && Step(d, e).Some?
    ensures Inv(Step(d, e).value)
  {
    hide PlacesOk, TxsOk, CancelsOk, WireOk, Routed;
    match e {
      case Read(resp) => ReadInv(d, resp);
      case Recv => RecvInv(d);
      case Abort => AbortInv(d);
      case Pass => PcInv(d, e);
      case Insert(key) => InsertInv(d, key);
      case SendOk => WriteInv(d, e);
      case SendFail(cause) => CompleteInv(d, d.pc.r.id, Err(Send(cause)));
      case TakeCancel => TakeCancelInv(d);
      case CancelOk => WriteInv(d, e);
      case CancelFail(_) => PcInv(d, e);
      case Expire(key) => ExpireInv(d, key);
      case Fault(_) =>
      case FinishOk =>
      case ClosePending =>
      case DrainFlight(i) => CompleteInv(d, i, Err(Channel(d.terminal.value)));
      case DrainRecv => DrainRecvInv(d);
      case FinishErr =>
      case Drop => DropInv(d);
    }
  }
}
