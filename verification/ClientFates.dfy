/** Every move keeps the fates truthful: what a settled request is said to have met is what happened. */
module ClientFates {
  import opened Types
  import opened Flights
  import opened DispatchProtocol
  import opened ClientProtocol

  /** What has happened stays so: histories grow, time passes, and an error stays recorded. */
  ghost predicate Later(f: Facts, g: Facts, i: Id) {
    && f.received <= g.received && f.now <= g.now && f.closed <= g.closed
    && (i in f.accepted ==> i in g.accepted && g.accepted[i] == f.accepted[i])
    && (i in f.log.wroteAt ==> i in g.log.wroteAt) && (i in f.log.cancelAt ==> i in g.log.cancelAt)
    && (f.terminal.Some? ==> g.terminal == f.terminal) && (f.gone ==> g.gone)
  }

  lemma FateStays(f: Facts, g: Facts, i: Id, fate: Fate)
    requires Truthful(f, i, fate) && Later(f, g, i)
    requires i in g.log.wroteAt ==> i in f.log.wroteAt || fate.Cancelled?
    requires f.pc == Cancelling(i) && fate.Cancelled? ==> Followed(g, i)
    ensures Truthful(g, i, fate)
  {
  }

  /** Nothing about `j` changes but the facts. */
  lemma FateKept(d: State, n: State, j: Id)
    requires FateOk(d, j) && Later(FactsOf(d), FactsOf(n), j) && n.flights == d.flights
    requires j in n.sites && n.sites[j].Done? ==> j in d.sites && d.sites[j] == n.sites[j]
    requires j in n.log.wroteAt ==> j in d.log.wroteAt || (j in d.sites && d.sites[j] == Flying)
    requires d.pc == Cancelling(j) ==> Followed(FactsOf(n), j)
    ensures FateOk(n, j)
  {
    if j in n.sites && n.sites[j].Done? {
      FateStays(FactsOf(d), FactsOf(n), j, n.sites[j].fate);
    }
  }

  lemma CompleteFate(d: State, i: Id, v: Outcome, j: Id)
    requires FateOk(d, j) && d.flights.Agree()
    requires i in d.flights.slots ==> Truthful(FactsOf(d), i, Completed(v))
    ensures FateOk(Complete(d, i, v), j)
  {
    hide Truthful;
  }

  lemma ReadFate(d: State, resp: Response, j: Id)
    requires FateOk(d, j) && d.flights.Agree()
    ensures FateOk(Complete(d.(received := d.received + [resp]), resp.id, ToOutcome(resp.message)), j)
  {
    hide Complete;
    var n := d.(received := d.received + [resp]);
    assert resp in n.received && resp == Response(resp.id, resp.message);
    FateKept(d, n, j);
    CompleteFate(n, resp.id, ToOutcome(resp.message), j);
  }

  lemma CancelEntryFate(d: State, i: Id, j: Id)
    requires FateOk(d, j) && d.flights.Agree() && d.pc.Idle? && (i in d.flights.slots ==> i in d.log.wroteAt)
    ensures FateOk(CancelEntry(d, i), j)
  {
    var n := CancelEntry(d, i);
    if j in n.sites && n.sites[j].Done? && j != i {
      FateStays(FactsOf(d), FactsOf(n), j, n.sites[j].fate);
    }
  }

  lemma DrainHeadFate(d: State, e: ChannelError, j: Id)
    requires FateOk(d, j) && d.pending != [] && d.terminal == Some(e) && d.pending[0].id !in d.log.wroteAt
    ensures FateOk(DrainHead(d, e), j)
  {
    hide TimerOk;
    var n, i := DrainHead(d, e), d.pending[0].id;
    assert FactsOf(n) == FactsOf(d);
    assert j != i && j in n.sites ==> j in d.sites && d.sites[j] == n.sites[j];
  }

  lemma DropAllFate(d: State, j: Id)
    requires FateOk(d, j) && d.pc.Idle?
    ensures FateOk(DropAll(d), j)
  {
    var n := DropAll(d);
    if j in d.sites && d.sites[j].Done? && !Owns(d, j) {
      FateStays(FactsOf(d), FactsOf(n), j, d.sites[j].fate);
    }
  }

  lemma ExpireFate(d: State, key: Key, j: Id)
    requires d.flights.Agree() && key in d.flights.timers && d.flights.timers[key].expiry <= d.now
    requires FateOk(d, j) && FateOk(d, d.flights.timers[key].id)
    ensures FateOk(Complete(d, d.flights.timers[key].id, Err(DeadlineExceeded)).(flights := d.flights.Expire(key)), j)
  {
    var i := d.flights.timers[key].id;
    ExpireIsRemove(d.flights, key);
    CompleteFate(d, i, Err(DeadlineExceeded), j);
    var n := Complete(d, i, Err(DeadlineExceeded));
    assert n.(flights := d.flights.Expire(key)) == n;
  }

  /** A request that is queued, in hand or about to be written was not written. */
  lemma Unwritten(d: State, i: Id)
    requires Inv(d)
    requires InQueue(d.pending, i) || d.pc.Holds(i) || (d.pc.Inserted? && d.pc.r.id == i)
    ensures i !in d.log.wroteAt
  {
    hide TxsOk, CancelsOk, Routed, LifeOk;
    assert WrittenOk(i, d.log, d.accepted, d.sites, d.pc);
  }

  lemma AbortFate(d: State, j: Id)
    requires Inv(d) && FateOk(d, j) && Step(d, Abort).Some?
    ensures FateOk(Step(d, Abort).value, j)
  {
    hide Inv, TimerOk;
    var n := Step(d, Abort).value;
    if j == d.pc.r.id {
      Unwritten(d, j);
    } else if j in d.sites && d.sites[j].Done? {
      FateStays(FactsOf(d), FactsOf(n), j, d.sites[j].fate);
    }
  }

  lemma InsertFate(d: State, key: Key, j: Id)
    requires Inv(d) && FateOk(d, j) && Step(d, Insert(key)).Some?
    ensures FateOk(Step(d, Insert(key)).value, j)
  {
    hide TxsOk, CancelsOk, WireOk, Routed, LifeOk;
    var n := Step(d, Insert(key)).value;
    if j != d.pc.r.id && j in d.sites && d.sites[j].Done? {
      FateStays(FactsOf(d), FactsOf(n), j, d.sites[j].fate);
    }
  }

  lemma SendFate(d: State, e: Event, j: Id)
    requires Inv(d) && FateOk(d, j) && (e.SendOk? || e.SendFail?) && Step(d, e).Some?
    ensures FateOk(Step(d, e).value, j)
  {
    hide Complete, TxsOk, CancelsOk, WireOk, Routed, LifeOk;
    if e.SendOk? {
      FateKept(d, Step(d, e).value, j);
    } else {
      var n := d.(pc := Idle);
      Unwritten(d, d.pc.r.id);
      FateKept(d, n, j);
      CompleteFate(n, d.pc.r.id, Err(Send(e.cause)), j);
    }
  }

  lemma RecvFate(d: State, j: Id)
    requires FateOk(d, j) && Step(d, Recv).Some?
    ensures FateOk(Step(d, Recv).value, j)
  {
    var n := Step(d, Recv).value;
    FateKept(d, n, j);
  }

  lemma FlyingIsWritten(d: State, i: Id)
    requires Inv(d) && d.pc.Idle? && i in d.flights.slots
    ensures i in d.log.wroteAt
  {
    hide TxsOk, CancelsOk, Routed, LifeOk;
    assert WrittenOk(i, d.log, d.accepted, d.sites, d.pc);
  }

  lemma TakeCancelFate(d: State, j: Id)
    requires Inv(d) && FateOk(d, j) && Step(d, TakeCancel).Some?
    ensures FateOk(Step(d, TakeCancel).value, j)
  {
    hide CancelEntry, PlacesOk, TxsOk, CancelsOk, WireOk, Routed, LifeOk;
    if d.cancelQ[0] in d.flights.slots {
      FlyingIsWritten(d, d.cancelQ[0]);
    }
    var n := d.(cancelQ := d.cancelQ[1..]);
    assert FactsOf(n) == FactsOf(d);
    CancelEntryFate(n, d.cancelQ[0], j);
  }

  lemma DrainFlightFate(d: State, i: Id, j: Id)
    requires FateOk(d, j) && d.flights.Agree() && Step(d, DrainFlight(i)).Some?
    ensures FateOk(Step(d, DrainFlight(i)).value, j)
  {
    hide Complete;
    CompleteFate(d, i, Err(Channel(d.terminal.value)), j);
  }

  lemma DrainRecvFate(d: State, j: Id)
    requires Inv(d) && FateOk(d, j) && Step(d, DrainRecv).Some?
    ensures FateOk(Step(d, DrainRecv).value, j)
  {
    hide DrainHead, Inv;
    assert InQueue(d.pending, d.pending[0].id);
    Unwritten(d, d.pending[0].id);
    DrainHeadFate(d, d.terminal.value, j);
  }

  /** Steps that settle nothing. */
  lemma QuietFate(d: State, e: Event, j: Id)
    requires FateOk(d, j) && Step(d, e).Some?
    requires e.Pass? || e.CancelOk? || e.CancelFail? || e.Fault? || e.FinishOk? || e.ClosePending? || e.FinishErr?
    ensures FateOk(Step(d, e).value, j)
  {
    FateKept(d, Step(d, e).value, j);
  }

  /** Every step of the dispatcher keeps every fate truthful. */
  lemma StepFate(d: State, e: Event, j: Id)
    requires Inv(d) && Step(d, e).Some? && forall i :: FateOk(d, i)
    ensures FateOk(Step(d, e).value, j)
  {
    hide Complete, CancelEntry, DrainHead, DropAll, FateOk, PlacesOk, TxsOk, CancelsOk, WireOk, Routed, LifeOk;
    match e {
      case Read(resp) => ReadFate(d, resp, j);
      case Recv => RecvFate(d, j);
      case Abort => AbortFate(d, j);
      case Insert(key) => InsertFate(d, key, j);
      case SendOk => SendFate(d, e, j);
      case SendFail(_) => SendFate(d, e, j);
      case TakeCancel => TakeCancelFate(d, j);
      case Expire(key) => ExpireFate(d, key, j);
      case DrainFlight(i) => DrainFlightFate(d, i, j);
      case DrainRecv => DrainRecvFate(d, j);
      case Drop => DropAllFate(d, j);
      case _ => QuietFate(d, e, j);
    }
  }

  lemma NewTimer(d: State, i: Id, r: Request)
    requires TimerOk(d.flights, d.accepted, d.now, i) && i !in d.accepted
    ensures TimerOk(d.flights, d.accepted[i := r], d.now, i)
  {
  }

  lemma PushNewFate(d: State, i: Id, r: Request)
    requires FateOk(d, i) && i !in d.accepted
    ensures FateOk(Push(d, i, r), i)
  {
    hide TimerOk;
    NewTimer(d, i, r);
  }

  lemma PushFate(d: State, i: Id, r: Request, j: Id)
    requires FateOk(d, j) && i !in d.accepted
    ensures FateOk(Push(d, i, r), j)
  {
    hide FateOk, Truthful, Followed;
    if j == i {
      PushNewFate(d, i, r);
    } else {
      PushFollowed(d, i, r, j);
      FateKept(d, Push(d, i, r), j);
    }
  }

  lemma PushFollowed(d: State, i: Id, r: Request, j: Id)
    ensures d.pc == Cancelling(j) ==> Followed(FactsOf(Push(d, i, r)), j)
  {
  }

  /** Moves that neither accept nor settle a request. */
  lemma CallerFate(c: Client, m: Move, j: Id)
    requires FateOk(c.d, j) && Next(c, m).Some? && !m.Dispatch? && !m.Enqueue?
    ensures FateOk(Next(c, m).value.d, j)
  {
    FateKept(c.d, Next(c, m).value.d, j);
  }

  /** Every move of every party keeps every fate truthful. */
  lemma NextFate(c: Client, m: Move, j: Id)
    requires Coherent(c) && Next(c, m).Some? && forall i :: FateOk(c.d, i)
    ensures FateOk(Next(c, m).value.d, j)
  {
    hide Step, Inv, FateOk, OutcomesOk, CancelledOk, PermitsOk, RaceOk;
    match m {
      case Dispatch(e) => StepFate(c.d, e, j);
      case Enqueue(i) => PushFate(c.d, i, c.calls[i].req, j);
      case _ => CallerFate(c, m, j);
    }
  }

}
