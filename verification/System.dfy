/**
 Client and server joined by two FIFO wires, as by the in-memory transport: what one side has
 written and the other has not yet read is on the wire.
 */
module System {
  import opened Types
  import opened Flights
  import D = DispatchProtocol
  import C = ClientProtocol
  import S = ServerProtocol
  import CP = ClientProofs
  import CT = ClientTheorems
  import SP = ServerProofs
  import ST = ServerTheorems

  datatype System = System(c: C.Client, v: S.Server)

  datatype Move = OfClient(m: C.Move) | OfServer(e: S.Event)

  /** The client reads the next response of the server, the server the next message of the client. */
  predicate Delivers(s: System, m: Move) {
    match m
    case OfClient(Dispatch(Read(resp))) =>
      |s.c.d.received| < |s.v.sent| && s.v.sent[|s.c.d.received|].resp == resp
    case OfServer(Take(msg, _)) =>
      |s.v.received| < |s.c.d.log.sent| && s.c.d.log.sent[|s.v.received|] == msg
    case _ => true
  }

  ghost function Next(s: System, m: Move): Option<System> {
    if !Delivers(s, m) then None
    else
      match m
      case OfClient(m) =>
        var r := C.Next(s.c, m);
        if r.Some? then Some(s.(c := r.value)) else None
      case OfServer(e) =>
        var r := S.Step(s.v, e);
        if r.Some? then Some(s.(v := r.value)) else None
  }

  ghost function Run(s: System, ms: seq<Move>): Option<System>
    decreases |ms|
  {
    if ms == [] then Some(s)
    else
      var first := Next(s, ms[0]);
      if first.None? then None else Run(first.value, ms[1..])
  }

  ghost predicate Reachable(s: System) {
    exists max, buffer, ms :: Run(System(C.Init(max, buffer), S.Init()), ms) == Some(s)
  }

  // ------------------------------------------------------------------ the wires

  /** What was read is a prefix of what was written, in both directions. */
  ghost predicate Wired(written: seq<ClientMessage>, taken: seq<ClientMessage>, sent: seq<S.Reply>,
                        read: seq<Response>) {
    && taken <= written
    && |read| <= |sent| && forall q :: 0 <= q < |read| ==> read[q] == sent[q].resp
  }

  ghost predicate SystemInv(s: System) {
    C.ClientInv(s.c) && S.Inv(s.v) && Wired(s.c.d.log.sent, s.v.received, s.v.sent, s.c.d.received)
  }

  lemma StepGrows(d: D.State, e: D.Event)
    requires D.Step(d, e).Some?
    ensures var n := D.Step(d, e).value;
            && d.log.sent <= n.log.sent
            && n.received == if e.Read? then d.received + [e.resp] else d.received
  {
    hide D.Complete, D.CancelEntry, D.DrainHead, D.DropAll;
    match e {
      case Read(resp) => CP.CompleteShape(d.(received := d.received + [resp]), resp.id, ToOutcome(resp.message));
      case SendFail(cause) => CP.CompleteShape(d.(pc := D.Idle), d.pc.r.id, Err(Send(cause)));
      case TakeCancel => CP.CancelEntryShape(d.(cancelQ := d.cancelQ[1..]), d.cancelQ[0]);
      case Expire(key) => CP.CompleteShape(d, d.flights.timers[key].id, Err(DeadlineExceeded));
      case DrainFlight(i) => CP.CompleteShape(d, i, Err(Channel(d.terminal.value)));
      case DrainRecv => CP.DrainHeadShape(d, d.terminal.value);
      case Drop => CP.DropAllShape(d);
      case _ =>
    }
  }

  lemma ClientGrows(c: C.Client, m: C.Move)
    requires C.Next(c, m).Some?
    ensures var n := C.Next(c, m).value;
            && c.d.log.sent <= n.d.log.sent
            && n.d.received == if m.Dispatch? && m.event.Read? then c.d.received + [m.event.resp] else c.d.received
  {
    if m.Dispatch? {
      StepGrows(c.d, m.event);
    }
  }

  lemma ServerGrows(v: S.Server, e: S.Event)
    requires S.Step(v, e).Some?
    ensures var n := S.Step(v, e).value;
            && v.sent <= n.sent
            && n.received == if e.Take? then v.received + [e.msg] else v.received
  {
  }

  lemma WiresKept(s: System, m: Move)
    requires Wired(s.c.d.log.sent, s.v.received, s.v.sent, s.c.d.received) && Next(s, m).Some?
    ensures var n := Next(s, m).value; Wired(n.c.d.log.sent, n.v.received, n.v.sent, n.c.d.received)
  {
    match m {
      case OfClient(m) => ClientGrows(s.c, m);
      case OfServer(e) => ServerGrows(s.v, e);
    }
  }

  lemma NextInv(s: System, m: Move)
    requires SystemInv(s) && Next(s, m).Some?
    ensures SystemInv(Next(s, m).value)
  {
    WiresKept(s, m);
    match m {
      case OfClient(m) => CP.NextInv(s.c, m);
      case OfServer(e) => SP.StepInv(s.v, e);
    }
  }

  lemma {:induction false} RunInv(s: System, ms: seq<Move>)
    requires SystemInv(s) && Run(s, ms).Some?
    ensures SystemInv(Run(s, ms).value)
    decreases |ms|
  {
    hide SystemInv, Next;
    if ms == [] {
    } else {
      NextInv(s, ms[0]);
      RunInv(Next(s, ms[0]).value, ms[1..]);
    }
  }

  lemma InitInv(max: nat, buffer: nat)
    ensures SystemInv(System(C.Init(max, buffer), S.Init()))
  {
    ST.InitInv();
    CT.InitInv(max, buffer);
    NothingWritten();
  }

  lemma NothingWritten()
    ensures Wired([], [], [], [])
  {
  }

  lemma ReachableInv(s: System)
    requires Reachable(s)
    ensures SystemInv(s)
  {
    var max, buffer, ms :| Run(System(C.Init(max, buffer), S.Init()), ms) == Some(s);
    InitInv(max, buffer);
    RunInv(System(C.Init(max, buffer), S.Init()), ms);
  }

  // ------------------------------------------------------------------ one id, one handler

  /** Whatever the server read for an id is what the caller with that id asked for. */
  lemma TakenIsCalled(s: System, p: nat)
    requires SystemInv(s) && p < |s.v.received| && s.v.received[p].Call?
    ensures s.v.received[p] == s.c.d.log.sent[p]
    ensures var r := s.v.received[p].request;
            r.id in s.c.calls && s.c.calls[r.id].req == r && r.id in s.c.d.log.wroteAt && s.c.d.log.wroteAt[r.id] == p
  {
    CT.WrittenIsCalled(s.c, p);
  }

  lemma HandlerIsCall(s: System, h: S.Handle)
    requires SystemInv(s) && h < |s.v.handlers|
    ensures s.v.handlers[h].at < |s.v.received| && s.v.received[s.v.handlers[h].at] == Call(s.v.handlers[h].req)
  {
  }

  /** A handler runs exactly the request of the call with its id, and no other handler does. */
  lemma OneHandlerPerCall(s: System, h: S.Handle)
    requires SystemInv(s) && h < |s.v.handlers|
    ensures var r := s.v.handlers[h].req;
            && r.id in s.c.calls && s.c.calls[r.id].req == r
            && forall k :: 0 <= k < |s.v.handlers| && s.v.handlers[k].req.id == r.id ==> k == h
  {
    HandlerIsCall(s, h);
    TakenIsCalled(s, s.v.handlers[h].at);
    forall k | 0 <= k < |s.v.handlers| && s.v.handlers[k].req.id == s.v.handlers[h].req.id ensures k == h {
      HandlerIsCall(s, k);
      TakenIsCalled(s, s.v.handlers[k].at);
      SameStart(s, h, k);
    }
  }

  lemma SameStart(s: System, h: S.Handle, k: S.Handle)
    requires S.HandlersOk(s.v.handlers, s.v.received) && h < |s.v.handlers| && k < |s.v.handlers|
    requires s.v.handlers[h].at == s.v.handlers[k].at
    ensures h == k
  {
  }

  // ------------------------------------------------------------------ end to end

  /** The answer `m` to call `i` is the server's: `h` produced it for that very request. */
  ghost predicate Produced(s: System, i: Id, h: S.Handle, m: Result<Resp, ServerError>) {
    && h < |s.v.handlers| && i in s.c.calls && s.v.handlers[h].req == s.c.calls[i].req
    && (s.v.handlers[h].phase == S.Replied(m) || (s.v.handlers[h].phase.Throttled? && m == Err(S.THROTTLE_ERROR)))
    && forall k :: 0 <= k < |s.v.handlers| && s.v.handlers[k].req.id == i ==> k == h
  }

  lemma ResponseIsProduced(s: System, i: Id, m: Result<Resp, ServerError>) returns (h: S.Handle)
    requires SystemInv(s) && Response(i, m) in s.c.d.received
    ensures Produced(s, i, h, m)
  {
    var q :| 0 <= q < |s.c.d.received| && s.c.d.received[q] == Response(i, m);
    h := s.v.sent[q].origin;
    assert S.FromHandler(s.v.handlers, s.v.sent[q]);
    OneHandlerPerCall(s, h);
  }

  /**
   End-to-end routing: however calls, cancels, expiries and faults interleave, a call that resolves
   to a value or to a server error got the result of the one handler that ran its own request.
   */
  lemma NoCrossTalk(s: System, i: Id) returns (h: S.Handle)
    requires Reachable(s) && i in s.c.calls && s.c.calls[i].phase.Resolved?
    requires s.c.calls[i].phase.outcome.Ok? || s.c.calls[i].phase.outcome.error.Server?
    ensures match s.c.calls[i].phase.outcome
            case Ok(x) => Produced(s, i, h, Ok(x)) && s.v.handlers[h].phase == S.Replied(Ok(x))
            case Err(e) => Produced(s, i, h, Err(e.serverError))
  {
    ReachableInv(s);
    hide SystemInv, D.Inv;
    CT.ResolvedIsHeard(s.c, i);
    match s.c.calls[i].phase.outcome {
      case Ok(x) => h := ResponseIsProduced(s, i, Ok(x));
      case Err(e) => h := ResponseIsProduced(s, i, Err(e.serverError));
    }
  }

  // ------------------------------------------------------------------ linear tokens

  lemma {:induction false} CallsSplit(ms: seq<ClientMessage>, n: nat, i: Id)
    requires n <= |ms|
    ensures S.CountCalls(ms, i) == S.CountCalls(ms[..n], i) + S.CountCalls(ms[n..], i)
    decreases |ms|
  {
    if n == |ms| {
      assert ms[..n] == ms;
    } else {
      var last := |ms| - 1;
      CallsSplit(ms[..last], n, i);
      assert ms[..last][..n] == ms[..n];
      assert ms[n..][..last - n] == ms[..last][n..];
    }
  }

  lemma {:induction false} RepliesSplit(rs: seq<S.Reply>, n: nat, i: Id)
    requires n <= |rs|
    ensures S.CountReplies(rs, i) == S.CountReplies(rs[..n], i) + S.CountReplies(rs[n..], i)
    decreases |rs|
  {
    if n == |rs| {
      assert rs[..n] == rs;
    } else {
      var last := |rs| - 1;
      RepliesSplit(rs[..last], n, i);
      assert rs[..last][..n] == rs[..n];
      assert rs[n..][..last - n] == rs[..last][n..];
    }
  }

  lemma {:induction false} CallsAtMostOnce(ms: seq<ClientMessage>, i: Id)
    requires forall p, q :: 0 <= p < q < |ms| && ms[p].Call? && ms[q].Call? ==> ms[p].request.id != ms[q].request.id
    ensures S.CountCalls(ms, i) <= 1
    ensures (forall p :: 0 <= p < |ms| && ms[p].Call? ==> ms[p].request.id != i) ==> S.CountCalls(ms, i) == 0
    decreases |ms|
  {
    if ms == [] {
    } else {
      CallsAtMostOnce(ms[..|ms| - 1], i);
    }
  }

  /** How often request `i` is on its way to the server, being served, and on its way back. */
  ghost function Tokens(s: System, i: Id): nat
    requires |s.v.received| <= |s.c.d.log.sent| && |s.c.d.received| <= |s.v.sent|
  {
    S.CountCalls(s.c.d.log.sent[|s.v.received|..], i)
    + (if i in s.v.flights.slots then 1 else 0)
    + S.CountReplies(s.v.sent[|s.c.d.received|..], i)
  }

  lemma CallsOnce(s: System, i: Id)
    requires SystemInv(s)
    ensures S.CountCalls(s.c.d.log.sent, i) <= 1
    ensures S.CountCalls(s.c.d.log.sent, i)
          == S.CountCalls(s.v.received, i) + S.CountCalls(s.c.d.log.sent[|s.v.received|..], i)
  {
    var sent := s.c.d.log.sent;
    forall p, q | 0 <= p < q < |sent| && sent[p].Call?
          && sent[q].Call? ensures sent[p].request.id != sent[q].request.id {
      CT.WrittenIsCalled(s.c, p);
      CT.WrittenIsCalled(s.c, q);
    }
    CallsAtMostOnce(sent, i);
    CallsSplit(sent, |s.v.received|, i);
    assert sent[..|s.v.received|] == s.v.received;
  }

  /** Each id is a linear token: at most one of the three places holds it, at most once. */
  lemma LinearToken(s: System, i: Id)
    requires Reachable(s)
    ensures |s.v.received| <= |s.c.d.log.sent| && |s.c.d.received| <= |s.v.sent|
    ensures Tokens(s, i) <= 1
  {
    ReachableInv(s);
    CallsOnce(s, i);
    RepliesSplit(s.v.sent, |s.c.d.received|, i);
    ST.RepliesFitStarts(s.v, i);
  }

  // ------------------------------------------------------------------ cancellation, end to end

  /** The server never sees a cancel before its request, nor one for a call that is still awaited. */
  lemma CancelNeverOvertakes(s: System, q: nat) returns (p: nat)
    requires Reachable(s) && q < |s.v.received| && s.v.received[q].Cancel?
    ensures p < q && s.v.received[p].Call? && s.v.received[p].request.id == s.v.received[q].id
    ensures forall r :: 0 <= r < |s.v.received| && s.v.received[r] == s.v.received[q] ==> r == q
    ensures C.In(s.c, s.v.received[q].id, C.CancelSent)
  {
    ReachableInv(s);
    p := CT.CancelIsOfDropped(s.c, q);
  }

  /** A handler is told to stop by its client only if the caller dropped that very call. */
  lemma OnlyDroppedCallsAreAborted(s: System, h: S.Handle)
    requires Reachable(s) && h in s.v.aborted && s.v.aborted[h].CancelArrived?
    ensures h < |s.v.handlers| && C.In(s.c, s.v.handlers[h].req.id, C.CancelSent)
  {
    ReachableInv(s);
    var p := CT.CancelIsOfDropped(s.c, s.v.aborted[h].at);
  }

  lemma TrackedIsWritten(s: System, i: Id)
    requires SystemInv(s) && i in s.v.flights.slots
    ensures s.v.flights.slots[i].data < |s.v.handlers|
    ensures i in s.c.calls && i in s.c.d.log.wroteAt
    ensures s.c.d.log.wroteAt[i] == s.v.handlers[s.v.flights.slots[i].data].at
  {
    var h := s.v.flights.slots[i].data;
    HandlerIsCall(s, h);
    TakenIsCalled(s, s.v.handlers[h].at);
  }

  lemma {:induction false} RepliesCounted(rs: seq<S.Reply>, q: nat)
    requires q < |rs|
    ensures 1 <= S.CountReplies(rs, rs[q].resp.id)
    decreases |rs|
  {
    if q == |rs| - 1 {
    } else {
      RepliesCounted(rs[..|rs| - 1], q);
    }
  }

  /** While the server tracks a request the client has not read an answer to it. */
  lemma TrackedIsUnanswered(s: System, i: Id, m: Result<Resp, ServerError>)
    requires SystemInv(s) && i in s.v.flights.slots
    ensures Response(i, m) !in s.c.d.received
  {
    hide C.ClientInv, S.Inv;
    if Response(i, m) in s.c.d.received {
      var q :| 0 <= q < |s.c.d.received| && s.c.d.received[q] == Response(i, m);
      RepliesCounted(s.v.sent, q);
      ST.RepliesFitStarts(s.v, i);
      CallsOnce(s, i);
    }
  }

  /** `m` is on the wire to the server. */
  ghost predicate UnderWay(s: System, m: ClientMessage) {
    exists q :: |s.v.received| <= q < |s.c.d.log.sent| && s.c.d.log.sent[q] == m
  }

  /** A cancel written for a request the server still tracks has not been read. */
  lemma CancelIsUnderWay(s: System, i: Id)
    requires SystemInv(s) && i in s.v.flights.slots && i in s.c.d.log.cancelAt
    ensures UnderWay(s, Cancel(i))
  {
    hide S.Inv, C.ClientInv;
    TrackedIsWritten(s, i);
    ClientCoherent(s.c);
    CancelIsWritten(s.c.d, i);
    var q := s.c.d.log.cancelAt[i];
    if q < |s.v.received| {
      ST.TrackedSinceCancel(s.v, i, q);
    }
  }

  lemma ClientCoherent(c: C.Client)
    requires C.ClientInv(c)
    ensures C.Coherent(c) && D.Inv(c.d) && forall i :: C.FateOk(c.d, i)
  {
  }

  lemma CancelIsWritten(d: D.State, i: Id)
    requires D.Inv(d) && i in d.log.cancelAt
    ensures i in d.log.wroteAt && d.log.wroteAt[i] < d.log.cancelAt[i] < |d.log.sent|
    ensures d.log.sent[d.log.cancelAt[i]] == Cancel(i)
  {
    assert D.WrittenOk(i, d.log, d.accepted, d.sites, d.pc);
  }

  /** A dropped call whose request was written is in flight with its cancel queued, or settled. */
  lemma DroppedSite(c: C.Client, i: Id)
    requires C.Coherent(c) && C.In(c, i, C.CancelSent) && i in c.d.log.wroteAt
    ensures i in c.d.sites && (c.d.sites[i].Done? || i in c.d.cancelQ)
  {
    hide D.TxsOk, D.Routed, D.LifeOk, C.OutcomesOk, C.CancelledOk, C.PermitsOk;
    assert D.WrittenOk(i, c.d.log, c.d.accepted, c.d.sites, c.d.pc);
  }

  /** The client let the deadline pass before it saw the cancellation. */
  ghost predicate ExpiredFirst(c: C.Client, i: Id) {
    && i in c.d.sites && c.d.sites[i] == D.Done(D.Completed(Err(DeadlineExceeded)))
    && i in c.d.accepted && c.d.accepted[i].deadline <= c.d.now
  }

  /** What the fate of a request can be while the server still tracks it. */
  lemma SettledFate(s: System, i: Id, fate: D.Fate)
    requires SystemInv(s) && i in s.v.flights.slots && i in s.c.d.log.wroteAt
    requires C.Truthful(C.FactsOf(s.c.d), i, fate)
    ensures || s.c.d.pc == D.Cancelling(i) || UnderWay(s, Cancel(i)) || s.c.d.terminal.Some? || s.c.d.life.Gone?
            || (fate == D.Completed(Err(DeadlineExceeded))
                && i in s.c.d.accepted && s.c.d.accepted[i].deadline <= s.c.d.now)
  {
    hide SystemInv, UnderWay;
    match fate {
      case Completed(Ok(x)) => TrackedIsUnanswered(s, i, Ok(x));
      case Completed(Err(Server(e))) => TrackedIsUnanswered(s, i, Err(e));
      case Cancelled =>
        if i in s.c.d.log.cancelAt {
          CancelIsUnderWay(s, i);
        }
      case _ =>
    }
  }

  lemma DroppedFate(s: System, i: Id)
    requires SystemInv(s) && C.In(s.c, i, C.CancelSent) && i in s.v.flights.slots
    ensures || i in s.c.d.cancelQ || s.c.d.pc == D.Cancelling(i) || UnderWay(s, Cancel(i))
            || ExpiredFirst(s.c, i) || s.c.d.terminal.Some? || s.c.d.life.Gone?
  {
    hide Wired, S.Inv, C.ClientInv, C.Coherent, C.Truthful, C.TimerOk, D.Inv, UnderWay;
    ClientCoherent(s.c);
    TrackedIsWritten(s, i);
    DroppedSite(s.c, i);
    assert C.FateOk(s.c.d, i);
    if s.c.d.sites[i].Done? {
      SettledFate(s, i, s.c.d.sites[i].fate);
    }
  }

  /**
   Cancellation is not forgotten: if the server still tracks a call that was dropped, its cancel is
   queued at the client, about to be written, or on the wire, unless the client expired the request
   first or its dispatcher failed or is gone.
   */
  lemma DroppedCallIsCancelled(s: System, i: Id)
    requires Reachable(s) && C.In(s.c, i, C.CancelSent) && i in s.v.flights.slots
    ensures || i in s.c.d.cancelQ || s.c.d.pc == D.Cancelling(i) || UnderWay(s, Cancel(i))
            || ExpiredFirst(s.c, i) || s.c.d.terminal.Some? || s.c.d.life.Gone?
  {
    ReachableInv(s);
    DroppedFate(s, i);
  }

  /** After a request's end at the server, nothing is ever written for its id again. */
  lemma EndIsFinal(s: System, p: nat, q: nat)
    requires Reachable(s) && p < q < |s.v.acts| && s.v.acts[p].End?
    ensures s.v.acts[q].id != s.v.acts[p].id
  {
    ReachableInv(s);
    CallsOnce(s, s.v.acts[p].id);
    ST.EndOfUniqueId(s.v, p);
  }

  lemma ExpiredIsNotCancelled(c: C.Client, i: Id)
    requires C.ClientInv(c) && ExpiredFirst(c, i)
    ensures i !in c.d.log.cancelAt
  {
    hide D.TxsOk, D.Routed, D.LifeOk;
    assert D.WrittenOk(i, c.d.log, c.d.accepted, c.d.sites, c.d.pc);
  }

  lemma UnderWayIsLogged(s: System, i: Id)
    requires SystemInv(s) && UnderWay(s, Cancel(i))
    ensures i in s.c.d.log.cancelAt
  {
    var q :| |s.v.received| <= q < |s.c.d.log.sent| && s.c.d.log.sent[q] == Cancel(i);
  }

  /**
   Exactly when: with nothing failed and nothing left to do for it at the client, the cancel of a
   dropped call that the server still tracks is on the wire if and only if the request did not expire first.
   */
  lemma UnderWayIffNotExpired(s: System, i: Id)
    requires Reachable(s) && C.In(s.c, i, C.CancelSent) && i in s.v.flights.slots
    requires i !in s.c.d.cancelQ && s.c.d.pc != D.Cancelling(i) && s.c.d.terminal.None? && !s.c.d.life.Gone?
    ensures UnderWay(s, Cancel(i)) <==> !ExpiredFirst(s.c, i)
  {
    ReachableInv(s);
    DroppedCallIsCancelled(s, i);
    hide Reachable, C.ClientInv, S.Inv, Wired, UnderWay, ExpiredFirst;
    if UnderWay(s, Cancel(i)) && ExpiredFirst(s.c, i) {
      UnderWayIsLogged(s, i);
      ExpiredIsNotCancelled(s.c, i);
    }
  }

  // ------------------------------------------------------------------ stopping handlers, end to end

  lemma CancelledHandler(s: System, q: nat) returns (h: S.Handle)
    requires SystemInv(s) && q < |s.v.received| && s.v.received[q].Cancel?
    ensures h < |s.v.handlers| && s.v.handlers[h].req.id == s.v.received[q].id
  {
    var p := CT.CancelIsOfDropped(s.c, q);
    assert s.v.received[p] == s.c.d.log.sent[p];
    assert S.Started(s.v.handlers, s.v.received[q].id);
    h :| 0 <= h < |s.v.handlers| && s.v.handlers[h].req.id == s.v.received[q].id;
  }

  lemma HeededBy(v: S.Server, h: S.Handle)
    requires S.Inv(v) && h < |v.handlers| && S.OnlyOne(v.handlers, h)
    ensures S.HeededAt(v.flights.slots, v.handlers, v.aborted, h)
    ensures forall p :: S.EndTrue(v.acts, v.handlers, v.aborted, p)
  {
  }

  lemma CancelReadEnds(s: System, q: nat)
    requires SystemInv(s) && q < |s.v.received| && s.v.received[q].Cancel?
    ensures s.v.received[q].id !in s.v.flights.slots
  {
    var i := s.v.received[q].id;
    if i in s.v.flights.slots {
      ST.TrackedSinceCancel(s.v, i, q);
      TrackedIsWritten(s, i);
      var p := CT.CancelIsOfDropped(s.c, q);
      CT.WrittenIsCalled(s.c, p);
    }
  }

  lemma StoppedByCancel(s: System, h: S.Handle, p: nat)
    requires SystemInv(s) && h < |s.v.handlers| && S.OnlyOne(s.v.handlers, h)
    requires p < |s.v.acts| && s.v.acts[p] == S.End(s.v.handlers[h].req.id, S.ByCancel)
    ensures h in s.v.aborted && s.v.aborted[h].CancelArrived?
  {
    hide SystemInv;
    ServerInv(s);
    HeededBy(s.v, h);
    var k := ST.EndedHandler(s.v, p);
  }

  lemma ServerInv(s: System)
    requires SystemInv(s)
    ensures S.Inv(s.v)
  {
  }

  /**
   A cancel that the server has read stops the one handler of the dropped call: it was told to stop, or
   had finished before. If the call was still tracked when the cancel was read, it was told to stop.
   */
  lemma CancelStopsHandler(s: System, q: nat) returns (h: S.Handle)
    requires Reachable(s) && q < |s.v.received| && s.v.received[q].Cancel?
    ensures var i := s.v.received[q].id;
            && C.In(s.c, i, C.CancelSent) && i !in s.v.flights.slots
            && h < |s.v.handlers| && s.v.handlers[h].req == s.c.calls[i].req
            && (h in s.v.aborted || (!s.v.handlers[h].phase.Fresh? && !s.v.handlers[h].phase.Armed?))
            && (S.End(i, S.ByCancel) in s.v.acts ==> h in s.v.aborted && s.v.aborted[h].CancelArrived?)
  {
    ReachableInv(s);
    hide Reachable, SystemInv;
    var i := s.v.received[q].id;
    h := CancelledHandler(s, q);
    OneHandlerPerCall(s, h);
    CancelReadEnds(s, q);
    var p := CancelNeverOvertakes(s, q);
    ServerInv(s);
    hide S.Inv;
    HeededBy(s.v, h);
    if S.End(i, S.ByCancel) in s.v.acts {
      var a :| 0 <= a < |s.v.acts| && s.v.acts[a] == S.End(i, S.ByCancel);
      StoppedByCancel(s, h, a);
    }
  }

  // ------------------------------------------------------------------ what a call hands over, end to end

  /** The client's part of a run. */
  function ClientMoves(ms: seq<Move>): seq<C.Move> {
    if ms == [] then []
    else (if ms[0].OfClient? then [ms[0].m] else []) + ClientMoves(ms[1..])
  }

  lemma {:induction false} ClientRuns(s: System, ms: seq<Move>)
    requires Run(s, ms).Some?
    ensures C.Run(s.c, ClientMoves(ms)) == Some(Run(s, ms).value.c)
    decreases |ms|
  {
    hide C.Next, S.Step;
    if ms == [] {
    } else {
      ClientRuns(Next(s, ms[0]).value, ms[1..]);
      if ms[0].OfClient? {
        assert ClientMoves(ms)[1..] == ClientMoves(ms[1..]);
      } else {
        assert ClientMoves(ms) == ClientMoves(ms[1..]);
      }
    }
  }

  /**
   The handler that serves a call works on what the caller passed: the body and the deadline of the
   call that drew that id.
   */
  lemma HandlerGetsTheCall(max: nat, buffer: nat, ms: seq<Move>, k: nat, h: S.Handle)
    requires Run(System(C.Init(max, buffer), S.Init()), ms).Some?
    requires k < |ClientMoves(ms)| && ClientMoves(ms)[k].StartCall?
    requires var v := Run(System(C.Init(max, buffer), S.Init()), ms).value.v;
             h < |v.handlers| && v.handlers[h].req.id == CT.CallsMade(ClientMoves(ms)[..k])
    ensures var v, m := Run(System(C.Init(max, buffer), S.Init()), ms).value.v, ClientMoves(ms)[k];
            v.handlers[h].req == Request(v.handlers[h].req.id, m.deadline, m.body)
  {
    hide Next, SystemInv;
    var s := System(C.Init(max, buffer), S.Init());
    ClientRuns(s, ms);
    CT.CallHandsOver(max, buffer, ClientMoves(ms), k, 0);
    InitInv(max, buffer);
    RunInv(s, ms);
    OneHandlerPerCall(Run(s, ms).value, h);
  }

  // ------------------------------------------------------------------ answers are delivered

  /** What may have become of a call whose answer `m` was read: that answer, or something that came first. */
  predicate Outdone(fate: D.Fate, m: Result<Resp, ServerError>) {
    fate == D.Completed(ToOutcome(m)) || fate == D.Completed(Err(DeadlineExceeded)) || fate == D.Cancelled
  }

  /** The answer that was read at `q` has reached its call, unless something else came first. */
  ghost predicate AnsweredAt(d: D.State, q: nat) {
    q < |d.received| ==>
      var i := d.received[q].id;
      i in d.sites && d.sites[i].Done? && Outdone(d.sites[i].fate, d.received[q].message)
  }

  lemma CompleteKeepsDone(d: D.State, k: Id, v: Outcome, i: Id)
    requires i in d.sites && d.sites[i].Done? && (k in d.flights.slots ==> k != i)
    ensures var n := D.Complete(d, k, v); i in n.sites && n.sites[i] == d.sites[i]
  {
  }

  lemma CancelKeepsDone(d: D.State, k: Id, i: Id)
    requires i in d.sites && d.sites[i].Done? && (k in d.flights.slots ==> k != i)
    ensures var n := D.CancelEntry(d, k); i in n.sites && n.sites[i] == d.sites[i]
  {
  }

  lemma DropKeepsDone(d: D.State, i: Id)
    requires D.PlacesOk(d.accepted, d.sites, d.pending, d.flights.slots.Keys, d.pc) && i in d.sites && d.sites[i].Done?
    ensures var n := D.DropAll(d); i in n.sites && n.sites[i] == d.sites[i]
  {
    assert forall p :: 0 <= p < |d.pending| ==> D.At(d.accepted, d.sites, d.pending[p], D.Queued);
  }

  /** A request that is settled stays as it is. */
  lemma StepKeepsDone(d: D.State, e: D.Event, i: Id)
    requires D.Inv(d) && D.Step(d, e).Some? && i in d.sites && d.sites[i].Done?
    ensures i in D.Step(d, e).value.sites && D.Step(d, e).value.sites[i] == d.sites[i]
  {
    hide D.TxsOk, D.CancelsOk, D.WireOk, D.Routed, D.LifeOk, D.Complete, D.CancelEntry, D.DropAll, D.InQueue;
    match e {
      case TakeCancel => CancelKeepsDone(d.(cancelQ := d.cancelQ[1..]), d.cancelQ[0], i);
      case Drop => DropKeepsDone(d, i);
      case Read(resp) =>
        CompleteKeepsDone(d.(received := d.received + [resp]), resp.id, ToOutcome(resp.message), i);
      case SendFail(cause) => CompleteKeepsDone(d.(pc := D.Idle), d.pc.r.id, Err(Send(cause)), i);
      case Expire(key) => CompleteKeepsDone(d, d.flights.timers[key].id, Err(DeadlineExceeded), i);
      case DrainFlight(k) => CompleteKeepsDone(d, k, Err(Channel(d.terminal.value)), i);
      case DrainRecv => assert D.At(d.accepted, d.sites, d.pending[0], D.Queued);
      case _ =>
    }
  }

  lemma NextKeepsDone(c: C.Client, m: C.Move, i: Id)
    requires C.Coherent(c) && C.Next(c, m).Some? && i in c.d.sites && c.d.sites[i].Done?
    ensures i in C.Next(c, m).value.d.sites && C.Next(c, m).value.d.sites[i] == c.d.sites[i]
  {
    hide D.Step, D.Inv, C.OutcomesOk, C.CancelledOk, C.PermitsOk, C.RaceOk;
    match m {
      case Dispatch(e) => StepKeepsDone(c.d, e, i);
      case Enqueue(k) => EnqueuesOther(c, k, i);
      case _ =>
    }
  }

  lemma EnqueuesOther(c: C.Client, k: Id, i: Id)
    requires C.Coherent(c) && C.Next(c, C.Enqueue(k)).Some? && i in c.d.sites
    ensures k != i
  {
    hide D.TxsOk, D.CancelsOk, D.WireOk, D.Routed, D.LifeOk, C.OutcomesOk, C.CancelledOk, C.PermitsOk, C.RaceOk;
  }

  /** The next answer to be read is to a request that was written. */
  lemma AnswerToWritten(s: System)
    requires SystemInv(s) && |s.c.d.received| < |s.v.sent|
    ensures var i := s.v.sent[|s.c.d.received|].resp.id;
            && i in s.c.d.log.wroteAt && forall q :: 0 <= q < |s.c.d.received| ==> s.c.d.received[q].id != i
  {
    var r := |s.c.d.received|;
    var i := s.v.sent[r].resp.id;
    ReplyToWritten(s, r);
    forall q | 0 <= q < r && s.c.d.received[q].id == i ensures false {
      RepliedTwice(s.v.sent, q, r);
      ServerInv(s);
      ST.RepliesFitStarts(s.v, i);
      CallsOnce(s, i);
    }
  }

  lemma ReplyToWritten(s: System, r: nat)
    requires SystemInv(s) && r < |s.v.sent|
    ensures s.v.sent[r].resp.id in s.c.d.log.wroteAt
  {
    var h := s.v.sent[r].origin;
    assert S.FromHandler(s.v.handlers, s.v.sent[r]);
    HandlerIsCall(s, h);
    TakenIsCalled(s, s.v.handlers[h].at);
  }

  lemma {:induction false} RepliedTwice(rs: seq<S.Reply>, q: nat, r: nat)
    requires q < r < |rs| && rs[q].resp.id == rs[r].resp.id
    ensures 2 <= S.CountReplies(rs, rs[q].resp.id)
    decreases |rs|
  {
    if r == |rs| - 1 {
      RepliesCounted(rs[..|rs| - 1], q);
    } else {
      RepliedTwice(rs[..|rs| - 1], q, r);
    }
  }

  /** Reading the answer to a written request that was not answered before settles it, or finds it settled. */
  lemma ReadAnswers(d: D.State, resp: Response)
    requires D.Inv(d) && C.FateOk(d, resp.id) && D.Step(d, D.Read(resp)).Some? && resp.id in d.log.wroteAt
    requires forall q :: 0 <= q < |d.received| ==> d.received[q].id != resp.id
    ensures AnsweredAt(D.Step(d, D.Read(resp)).value, |d.received|)
  {
    hide D.TxsOk, D.CancelsOk, D.Routed, D.LifeOk, C.TimerOk;
    assert D.WrittenOk(resp.id, d.log, d.accepted, d.sites, d.pc);
    var n := D.Step(d, D.Read(resp)).value;
    assert n.received[|d.received|] == resp;
    if d.sites[resp.id].Done? {
      FirstWins(d, resp);
    }
  }

  lemma FirstWins(d: D.State, resp: Response)
    requires resp.id in d.sites && d.sites[resp.id].Done? && D.Live(d) && resp.id in d.log.wroteAt
    requires C.Truthful(C.FactsOf(d), resp.id, d.sites[resp.id].fate)
    requires forall q :: 0 <= q < |d.received| ==> d.received[q].id != resp.id
    ensures d.sites[resp.id].fate == D.Completed(Err(DeadlineExceeded)) || d.sites[resp.id].fate == D.Cancelled
  {
  }

  ghost predicate AnswersReach(s: System) {
    forall q :: AnsweredAt(s.c.d, q)
  }

  lemma AnsweredStays(s: System, m: C.Move, q: nat)
    requires SystemInv(s) && AnsweredAt(s.c.d, q) && C.Next(s.c, m).Some? && Delivers(s, OfClient(m))
    ensures AnsweredAt(C.Next(s.c, m).value.d, q)
  {
    hide C.Next, SystemInv, D.Step;
    ClientGrows(s.c, m);
    ClientOf(s);
    if q < |s.c.d.received| {
      hide C.ClientInv;
      NextKeepsDone(s.c, m, s.c.d.received[q].id);
    } else if m.Dispatch? && m.event.Read? {
      AnswerToWritten(s);
      ReadsNext(s.c, m.event.resp);
      ReadAnswers(s.c.d, m.event.resp);
    }
  }

  lemma ClientOf(s: System)
    requires SystemInv(s)
    ensures C.ClientInv(s.c) && C.Coherent(s.c) && D.Inv(s.c.d) && forall i :: C.FateOk(s.c.d, i)
  {
  }

  lemma ReadsNext(c: C.Client, resp: Response)
    requires C.Next(c, C.Dispatch(D.Read(resp))).Some?
    ensures D.Step(c.d, D.Read(resp)) == Some(C.Next(c, C.Dispatch(D.Read(resp))).value.d)
  {
    hide D.Step;
  }

  lemma {:induction false} RunAnswers(s: System, ms: seq<Move>)
    requires SystemInv(s) && AnswersReach(s) && Run(s, ms).Some?
    ensures AnswersReach(Run(s, ms).value)
    decreases |ms|
  {
    hide SystemInv, C.Next, S.Step, AnsweredAt;
    if ms == [] {
    } else {
      NextInv(s, ms[0]);
      var n := Next(s, ms[0]).value;
      forall q ensures AnsweredAt(n.c.d, q) {
        assert AnsweredAt(s.c.d, q);
        if ms[0].OfClient? {
          AnsweredStays(s, ms[0].m, q);
        }
      }
      RunAnswers(n, ms[1..]);
    }
  }

  lemma ReachableAnswers(s: System)
    requires Reachable(s)
    ensures AnswersReach(s)
  {
    hide SystemInv, Next;
    var max, buffer, ms :| Run(System(C.Init(max, buffer), S.Init()), ms) == Some(s);
    InitInv(max, buffer);
    RunAnswers(System(C.Init(max, buffer), S.Init()), ms);
  }

  /**
   The converse of routing: once the client has read the server's answer to a call, the call is settled,
   with that answer unless its deadline or its own cancellation came first; a caller that still
   waits then has the answer.
   */
  lemma AnswerIsDelivered(s: System, i: Id, m: Result<Resp, ServerError>)
    requires Reachable(s) && Response(i, m) in s.c.d.received
    ensures i in s.c.d.sites && s.c.d.sites[i].Done? && Outdone(s.c.d.sites[i].fate, m)
    ensures C.In(s.c, i, C.Waiting) ==>
              && i in s.c.d.txs
              && (s.c.d.txs[i] == D.Sent(ToOutcome(m)) || s.c.d.txs[i] == D.Sent(Err(DeadlineExceeded)))
  {
    hide Reachable, SystemInv, C.ClientInv, C.Coherent, D.Inv, C.FateOk;
    ReachableInv(s);
    ReachableAnswers(s);
    var q :| 0 <= q < |s.c.d.received| && s.c.d.received[q] == Response(i, m);
    assert AnsweredAt(s.c.d, q);
    ClientOf(s);
    if C.In(s.c, i, C.Waiting) {
      WaitingHears(s.c, i);
    }
  }

  lemma WaitingHears(c: C.Client, i: Id)
    requires C.Coherent(c) && i in c.d.sites && c.d.sites[i].Done? && C.In(c, i, C.Waiting)
    ensures i in c.d.txs && D.Settled(c.d.txs[i], c.d.sites[i].fate, false, c.d.life.Gone?)
  {
    hide D.PlacesOk, D.CancelsOk, D.WireOk, D.Routed, D.LifeOk, C.OutcomesOk, C.CancelledOk, C.PermitsOk, C.RaceOk;
  }

  // ------------------------------------------------------------------ expiry against cancellation

  lemma {:induction false} RunSnoc(s: System, ms: seq<Move>, m: Move)
    requires Run(s, ms).Some?
    ensures Run(s, ms + [m]) == Next(Run(s, ms).value, m)
    decreases |ms|
  {
    hide Next;
    if ms == [] {
      assert ms + [m] == [m];
    } else {
      assert (ms + [m])[1..] == ms[1..] + [m];
      RunSnoc(Next(s, ms[0]).value, ms[1..], m);
    }
  }

  lemma Continue(s: System, m: Move) returns (s': System)
    requires Reachable(s) && Next(s, m).Some?
    ensures Reachable(s') && Next(s, m) == Some(s')
  {
    hide Next;
    var max, buffer, ms :| Run(System(C.Init(max, buffer), S.Init()), ms) == Some(s);
    RunSnoc(System(C.Init(max, buffer), S.Init()), ms, m);
    s' := Next(s, m).value;
  }

  lemma NewSystem() returns (s: System)
    ensures s == System(C.Init(1, 1), S.Init()) && Reachable(s)
  {
    s := System(C.Init(1, 1), S.Init());
    assert Run(s, []) == Some(s);
  }

  lemma MoveOn(s: System, m: C.Move) returns (s': System)
    requires Reachable(s) && C.Next(s.c, m).Some? && !(m.Dispatch? && m.event.Read?)
    ensures Reachable(s') && s' == s.(c := C.Next(s.c, m).value)
  {
    hide Reachable, C.Next;
    s' := Continue(s, OfClient(m));
  }

  /** One call, due at time 0. */
  lemma OneQueued(body: Req) returns (s: System)
    ensures Reachable(s) && s.v == S.Init() && C.In(s.c, 0, C.Waiting)
    ensures var r := Request(0, 0, body);
            s.c.d == C.Init(1, 1).d.(pending := [r], accepted := map[0 := r], txs := map[0 := D.Held],
                                     sites := map[0 := D.Queued])
  {
    hide Reachable;
    s := NewSystem();
    s := MoveOn(s, C.StartCall(body, 0));
    s := MoveOn(s, C.Reserve(0));
    s := MoveOn(s, C.Enqueue(0));
  }

  /** Its request taken and put in flight. */
  lemma OneInserted(body: Req) returns (s: System)
    ensures Reachable(s) && s.v == S.Init() && C.In(s.c, 0, C.Waiting)
    ensures var r := Request(0, 0, body);
            s.c.d == C.Init(1, 1).d.(accepted := map[0 := r], txs := map[0 := D.Held], sites := map[0 := D.Flying],
                                     flights := NoFlights().Insert(0, 0, 0, 0), pc := D.Inserted(r))
  {
    hide Reachable;
    s := OneQueued(body);
    s := MoveOn(s, C.Dispatch(D.Recv));
    s := MoveOn(s, C.Dispatch(D.Pass));
    s := MoveOn(s, C.Dispatch(D.Insert(0)));
  }

  /** Its request written and read by the server. */
  lemma OneServed(body: Req) returns (s: System)
    ensures Reachable(s) && C.In(s.c, 0, C.Waiting) && 0 in s.v.flights.slots && |s.v.received| == 1
    ensures var r := Request(0, 0, body);
            s.c.d == C.Init(1, 1).d.(accepted := map[0 := r], txs := map[0 := D.Held], sites := map[0 := D.Flying],
                                     flights := NoFlights().Insert(0, 0, 0, 0),
                                     log := D.Log([Call(r)], map[0 := 0], map[]))
  {
    hide Reachable;
    s := OneInserted(body);
    s := MoveOn(s, C.Dispatch(D.SendOk));
    s := Continue(s, OfServer(S.Take(Call(Request(0, 0, body)), 0)));
  }

  /** Its receiver closed, and then its deadline noticed. */
  lemma OneExpired(body: Req) returns (s: System)
    ensures Reachable(s) && C.In(s.c, 0, C.Closing(false)) && 0 in s.v.flights.slots && |s.v.received| == 1
    ensures D.Live(s.c.d) && s.c.d.cancelQ == [] && s.c.d.flights.slots == map[]
    ensures ExpiredFirst(s.c, 0) && s.c.d.log.sent == [Call(Request(0, 0, body))]
  {
    hide Reachable;
    s := OneServed(body);
    s := MoveOn(s, C.CloseGuard(0));
    s := MoveOn(s, C.Dispatch(D.Expire(0)));
  }

  /**
   The exception is real: a call dropped while its request expires leaves the server at work with no
   cancel queued, written or to be written, though nothing failed.
   */
  lemma ExpiryForgetsCancel(body: Req) returns (s: System)
    ensures Reachable(s) && C.In(s.c, 0, C.CancelSent) && 0 in s.v.flights.slots
    ensures s.c.d.cancelQ == [] && s.c.d.pc.Idle? && !UnderWay(s, Cancel(0))
    ensures ExpiredFirst(s.c, 0) && s.c.d.terminal.None? && s.c.d.life.Polling?
  {
    hide Reachable;
    s := OneExpired(body);
    s := MoveOn(s, C.CancelGuard(0));
    s := MoveOn(s, C.Dispatch(D.TakeCancel));
  }
}
