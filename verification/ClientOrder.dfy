/** Requests reach the wire in the order in which their callers handed them over. */
module ClientOrder {
  import opened Types
  import opened Flights
  import opened DispatchProtocol
  import opened DispatchProofs
  import opened ClientProtocol
  import opened ClientProofs
  import opened ClientTheorems

  /** The dispatcher has seen `i` through: it is neither queued nor in hand nor about to be written. */
  ghost predicate Past(sites: Sites, pc: Pc, i: Id) {
    i in sites && !sites[i].Queued? && !pc.Holds(i) && !(pc.Inserted? && pc.r.id == i)
  }

  ghost predicate Before(pending: seq<Request>, i: Id, j: Id) {
    forall p, q :: 0 <= p < |pending| && 0 <= q < |pending| && pending[p].id == i && pending[q].id == j ==> p < q
  }

  /** `i` came before `j`, and still does. */
  ghost predicate InOrder(d: State, i: Id, j: Id) {
    && i != j && i in d.sites && j in d.sites
    && (!d.sites[j].Queued? ==> Past(d.sites, d.pc, i))
    && Before(d.pending, i, j)
    && (i in d.log.wroteAt && j in d.log.wroteAt ==> d.log.wroteAt[i] < d.log.wroteAt[j])
  }

  // ------------------------------------------------------------------ the dispatcher

  lemma QueuedIsUnwritten(d: State, i: Id)
    requires Inv(d) && i in d.log.wroteAt
    ensures i in d.sites && !d.sites[i].Queued? && !d.sites[i].InHand? && d.log.wroteAt[i] < |d.log.sent|
  {
    hide PlacesOk, TxsOk, CancelsOk, Routed, LifeOk;
    assert WrittenOk(i, d.log, d.accepted, d.sites, d.pc);
  }

  /** The head of the queue: whatever came before it is past. */
  lemma HeadOrder(d: State, i: Id, j: Id)
    requires Inv(d) && InOrder(d, i, j) && d.pending != [] && d.pc.Idle?
    ensures d.pending[0].id == j ==> Past(d.sites, d.pc, i)
    ensures d.pending[0].id == i ==> d.sites[j].Queued?
    ensures Before(d.pending[1..], i, j)
  {
    hide TxsOk, CancelsOk, Routed, LifeOk, WireOk;
    forall p, q | 0 <= p < |d.pending[1..]| && 0 <= q < |d.pending[1..]|
                  && d.pending[1..][p].id == i && d.pending[1..][q].id == j
      ensures p < q
    {
      assert d.pending[p + 1].id == i && d.pending[q + 1].id == j;
    }
    if d.pending[0].id == i {
      assert At(d.accepted, d.sites, d.pending[0], Queued);
    }
  }

  lemma RecvOrder(d: State, i: Id, j: Id)
    requires Inv(d) && InOrder(d, i, j) && Step(d, Recv).Some?
    ensures InOrder(Step(d, Recv).value, i, j)
  {
    hide Inv, Before;
    HeadOrder(d, i, j);
  }

  lemma DrainRecvOrder(d: State, i: Id, j: Id)
    requires Inv(d) && InOrder(d, i, j) && Step(d, DrainRecv).Some?
    ensures InOrder(Step(d, DrainRecv).value, i, j)
  {
    hide Inv, Before;
    HeadOrder(d, i, j);
  }

  /** A request that is settled was not queued, so the order of the queue is not touched. */
  lemma CompleteOrder(d: State, k: Id, v: Outcome, i: Id, j: Id)
    requires InOrder(d, i, j) && (k in d.flights.slots ==> k in d.sites && d.sites[k].Flying?)
    ensures InOrder(Complete(d, k, v), i, j)
  {
    hide Before;
  }

  lemma Flies(d: State, k: Id)
    requires Inv(d) && k in d.flights.slots
    ensures k in d.sites && d.sites[k].Flying?
  {
    hide TxsOk, CancelsOk, Routed, LifeOk, WireOk;
  }

  lemma HandOrder(d: State, e: Event, i: Id, j: Id)
    requires Inv(d) && InOrder(d, i, j) && (e.Abort? || e.Pass? || e.Insert?) && Step(d, e).Some?
    ensures InOrder(Step(d, e).value, i, j)
  {
    hide Before, TxsOk, CancelsOk, Routed, LifeOk, WireOk;
  }

  lemma SendOkOrder(d: State, i: Id, j: Id)
    requires Inv(d) && InOrder(d, i, j) && Step(d, SendOk).Some?
    ensures InOrder(Step(d, SendOk).value, i, j)
  {
    hide Before, PlacesOk, TxsOk, CancelsOk, Routed, LifeOk, WireOk;
    if i in d.log.wroteAt {
      QueuedIsUnwritten(d, i);
    }
    if j in d.log.wroteAt {
      QueuedIsUnwritten(d, j);
    }
  }

  lemma SendFailOrder(d: State, cause: Cause, i: Id, j: Id)
    requires Inv(d) && InOrder(d, i, j) && Step(d, SendFail(cause)).Some?
    ensures InOrder(Step(d, SendFail(cause)).value, i, j)
  {
    hide Before, Complete, Inv;
    if d.pc.r.id in d.flights.slots {
      Flies(d, d.pc.r.id);
    }
    CompleteOrder(d.(pc := Idle), d.pc.r.id, Err(Send(cause)), i, j);
  }

  lemma CancelOrder(d: State, i: Id, j: Id)
    requires Inv(d) && InOrder(d, i, j) && Step(d, TakeCancel).Some?
    ensures InOrder(Step(d, TakeCancel).value, i, j)
  {
    hide Before, Inv;
    if d.cancelQ[0] in d.flights.slots {
      Flies(d, d.cancelQ[0]);
    }
  }

  lemma DropOrder(d: State, i: Id, j: Id)
    requires Inv(d) && InOrder(d, i, j) && Step(d, Drop).Some?
    ensures InOrder(Step(d, Drop).value, i, j)
  {
    hide TxsOk, CancelsOk, Routed, LifeOk, WireOk;
  }

  /** Every step of the dispatcher keeps the order. */
  lemma StepOrder(d: State, e: Event, i: Id, j: Id)
    requires Inv(d) && InOrder(d, i, j) && Step(d, e).Some?
    ensures InOrder(Step(d, e).value, i, j)
  {
    hide Before, Complete, CancelEntry, DrainHead, DropAll, Inv;
    match e {
      case Read(resp) => SettleOrder(d, e, resp.id, i, j);
      case Recv => RecvOrder(d, i, j);
      case Abort => HandOrder(d, e, i, j);
      case Pass => HandOrder(d, e, i, j);
      case Insert(_) => HandOrder(d, e, i, j);
      case SendOk => SendOkOrder(d, i, j);
      case SendFail(cause) => SendFailOrder(d, cause, i, j);
      case TakeCancel => CancelOrder(d, i, j);
      case Expire(key) => SettleOrder(d, e, d.flights.timers[key].id, i, j);
      case DrainFlight(k) => SettleOrder(d, e, k, i, j);
      case DrainRecv => DrainRecvOrder(d, i, j);
      case Drop => DropOrder(d, i, j);
      case _ =>
    }
  }

  lemma SettleOrder(d: State, e: Event, k: Id, i: Id, j: Id)
    requires Inv(d) && InOrder(d, i, j) && Step(d, e).Some?
    requires match e
             case Read(resp) => k == resp.id
             case Expire(key) => key in d.flights.timers && k == d.flights.timers[key].id
             case DrainFlight(l) => k == l
             case _ => false
    ensures InOrder(Step(d, e).value, i, j)
  {
    hide Before, Complete, Inv;
    if k in d.flights.slots {
      Flies(d, k);
    }
    match e {
      case Read(resp) =>
        CompleteOrder(d.(received := d.received + [resp]), k, ToOutcome(resp.message), i, j);
      case Expire(_) => CompleteOrder(d, k, Err(DeadlineExceeded), i, j);
      case DrainFlight(_) => CompleteOrder(d, k, Err(Channel(d.terminal.value)), i, j);
    }
  }

  // ------------------------------------------------------------------ the callers

  /** Handing a request over puts it behind everything that was handed over before. */
  lemma PushOrder(d: State, j: Id, r: Request, i: Id)
    requires Inv(d) && j !in d.accepted && r.id == j && i in d.accepted
    ensures InOrder(Push(d, j, r), i, j)
  {
    hide TxsOk, CancelsOk, Routed;
    assert WrittenOk(j, d.log, d.accepted, d.sites, d.pc);
  }

  lemma PushKeepsOrder(d: State, k: Id, r: Request, i: Id, j: Id)
    requires InOrder(d, i, j) && k !in d.sites && r.id == k
    ensures InOrder(Push(d, k, r), i, j)
  {
  }

  lemma EnqueuesNew(c: Client, k: Id)
    requires Coherent(c) && Next(c, Enqueue(k)).Some?
    ensures k !in c.d.accepted && k !in c.d.sites && k in c.calls && c.calls[k].req.id == k
    ensures Next(c, Enqueue(k)).value.d == Push(c.d, k, c.calls[k].req)
  {
    hide TxsOk, CancelsOk, Routed, LifeOk, WireOk, OutcomesOk, CancelledOk, PermitsOk, RaceOk;
  }

  lemma NextOrder(c: Client, m: Move, i: Id, j: Id)
    requires Coherent(c) && InOrder(c.d, i, j) && Next(c, m).Some?
    ensures InOrder(Next(c, m).value.d, i, j)
  {
    hide Step, Inv, Push, CallersInv, Before, Past;
    match m {
      case Dispatch(e) => StepOrder(c.d, e, i, j);
      case Enqueue(k) =>
        EnqueuesNew(c, k);
        PushKeepsOrder(c.d, k, c.calls[k].req, i, j);
      case _ =>
    }
  }

  lemma {:induction false} RunOrder(c: Client, ms: seq<Move>, i: Id, j: Id)
    requires ClientInv(c) && InOrder(c.d, i, j) && Run(c, ms).Some?
    ensures InOrder(Run(c, ms).value.d, i, j)
    decreases |ms|
  {
    hide Next, InOrder, Coherent, FateOk;
    if ms == [] {
    } else {
      NextOrder(c, ms[0], i, j);
      NextInv(c, ms[0]);
      RunOrder(Next(c, ms[0]).value, ms[1..], i, j);
    }
  }

  lemma NextKeepsAccepted(c: Client, m: Move, i: Id)
    requires Next(c, m).Some? && i in c.d.accepted
    ensures i in Next(c, m).value.d.accepted
  {
    hide Step;
    if m.Dispatch? {
      StepFrame(c.d, m.event);
    }
  }

  lemma EnqueueAccepts(c: Client, i: Id)
    requires Coherent(c) && Next(c, Enqueue(i)).Some?
    ensures i in Next(c, Enqueue(i)).value.d.accepted
  {
    hide Coherent;
    EnqueuesNew(c, i);
  }

  /** From `i` handed over, up to `j` handed over. */
  lemma {:induction false} LaterOrder(c: Client, ms: seq<Move>, q: nat, i: Id, j: Id)
    requires ClientInv(c) && i in c.d.accepted && Run(c, ms).Some? && q < |ms| && ms[q] == Enqueue(j)
    ensures InOrder(Run(c, ms).value.d, i, j)
    decreases |ms|
  {
    hide Next, InOrder, Coherent, Inv, FateOk, Push;
    var n := Next(c, ms[0]).value;
    NextInv(c, ms[0]);
    if q == 0 {
      EnqueuesNew(c, j);
      InvOf(c);
      PushOrder(c.d, j, c.calls[j].req, i);
      RunOrder(n, ms[1..], i, j);
    } else {
      NextKeepsAccepted(c, ms[0], i);
      LaterOrder(n, ms[1..], q - 1, i, j);
    }
  }

  lemma InvOf(c: Client)
    requires Coherent(c)
    ensures Inv(c.d)
  {
  }

  lemma {:induction false} OrderInRun(c: Client, ms: seq<Move>, p: nat, q: nat, i: Id, j: Id)
    requires ClientInv(c) && Run(c, ms).Some? && p < q < |ms| && ms[p] == Enqueue(i) && ms[q] == Enqueue(j)
    ensures InOrder(Run(c, ms).value.d, i, j)
    decreases |ms|
  {
    hide Next, InOrder, Coherent, FateOk;
    NextInv(c, ms[0]);
    if p == 0 {
      EnqueueAccepts(c, i);
      LaterOrder(Next(c, ms[0]).value, ms[1..], q - 1, i, j);
    } else {
      OrderInRun(Next(c, ms[0]).value, ms[1..], p - 1, q - 1, i, j);
    }
  }

  /** Of two requests, the one handed over first is written first, however callers and dispatcher interleave. */
  lemma WrittenInOrder(max: nat, buffer: nat, ms: seq<Move>, p: nat, q: nat, a: nat, b: nat)
    requires Run(Init(max, buffer), ms).Some? && p < q < |ms| && ms[p].Enqueue? && ms[q].Enqueue?
    requires var sent := Run(Init(max, buffer), ms).value.d.log.sent;
             && a < |sent| && sent[a].Call? && sent[a].request.id == ms[p].id
             && b < |sent| && sent[b].Call? && sent[b].request.id == ms[q].id
    ensures a < b
  {
    hide Next, ClientInv, Before, Past;
    InitInv(max, buffer);
    RunInv(Init(max, buffer), ms);
    OrderInRun(Init(max, buffer), ms, p, q, ms[p].id, ms[q].id);
    WrittenIsCalled(Run(Init(max, buffer), ms).value, a);
    WrittenIsCalled(Run(Init(max, buffer), ms).value, b);
  }
}
