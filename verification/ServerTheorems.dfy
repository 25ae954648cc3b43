/** What holds of one server channel in every run, whatever the client sends. */
module ServerTheorems {
  import opened Types
  import opened Flights
  import opened ServerProtocol
  import opened ServerProofs

  ghost predicate Reachable(v: Server) {
    exists es :: Exec(Init(), es) == Some(v)
  }

  lemma {:induction false} ExecInv(v: Server, es: seq<Event>)
    requires Inv(v) && Exec(v, es).Some?
    ensures Inv(Exec(v, es).value)
    decreases |es|
  {
    if es == [] {
    } else {
      StepInv(v, es[0]);
      ExecInv(Step(v, es[0]).value, es[1..]);
    }
  }

  lemma InitInv()
    ensures Inv(Init())
  {
    NothingTracked([], map[], 0);
    NoHistory();
    NoHandlers();
  }

  lemma NoHandlers()
    ensures GuardsOk([], []) && CalledOk([], [])
    ensures HandlersOk([], []) && AbortsOk(map[], [], [], 0, true) && NoLeakOk(NoFlights<Handle>().slots, [], [], [])
  {
  }

  lemma NoHistory()
    ensures HistoryOk(NoFlights<Handle>().slots, [], true) && CountsOk([], [], [])
  {
  }

  lemma ReachableInv(v: Server)
    requires Reachable(v)
    ensures Inv(v)
  {
    var es :| Exec(Init(), es) == Some(v);
    InitInv();
    ExecInv(Init(), es);
  }

  lemma Continue(v: Server, e: Event) returns (v': Server)
    requires Reachable(v) && Step(v, e).Some?
    ensures Reachable(v') && Step(v, e) == Some(v')
  {
    var es :| Exec(Init(), es) == Some(v);
    ExecSnoc(Init(), es, e);
    v' := Step(v, e).value;
  }

  /** A whole poll of the channel, with the handlers frozen, is part of a run. */
  lemma PollIsRun(v: Server, es: seq<Event>)
    requires Reachable(v) && Exec(v, es).Some?
    ensures Reachable(Exec(v, es).value)
  {
    var before :| Exec(Init(), before) == Some(v);
    ExecAppend(Init(), before, es);
  }

  /** Tracked requests and timers are in bijection, though keys are used again. */
  lemma MapAndTimersAgree(v: Server, key: Key)
    requires Reachable(v)
    ensures v.flights.Agree() && |v.flights.timers| == |v.flights.slots|
    ensures v.flights.timers == map[] <==> v.flights.slots == map[]
    ensures key in v.flights.timers ==>
              v.flights.timers[key].id in v.flights.slots
              && v.flights.Expire(key) == v.flights.Remove(v.flights.timers[key].id)
  {
    ReachableInv(v);
    SameSize(v.flights);
    EmptyTogether(v.flights);
    if key in v.flights.timers {
      ExpireIsRemove(v.flights, key);
    }
  }

  /** The timer of a tracked request is due exactly once the request's deadline has passed. */
  lemma DueIffPastDeadline(v: Server, i: Id)
    requires Reachable(v) && i in v.flights.slots
    ensures v.flights.slots[i].data < |v.handlers| && v.flights.slots[i].key in v.flights.timers
    ensures v.flights.timers[v.flights.slots[i].key].expiry <= v.now
       <==> v.handlers[v.flights.slots[i].data].req.deadline <= v.now
  {
    ReachableInv(v);
  }

  // ------------------------------------------------------------------ no leaks

  /**
   Every tracked request that was handed out has a live handler with an armed guard, its response
   in the queue, or its id in the cancellation queue. This needs no assumption on the ids.
   */
  lemma NoLeak(v: Server, i: Id)
    requires Reachable(v) && i in v.flights.slots
    ensures v.flights.slots[i].data < |v.handlers|
    ensures var h := v.flights.slots[i].data;
            || v.handlers[h].phase.Fresh? || v.handlers[h].phase.Armed?
            || (v.handlers[h].phase.Replied?
                && exists q :: 0 <= q < |v.respQ| && v.respQ[q].origin == h && v.respQ[q].resp.id == i)
            || (v.handlers[h].phase.Dropped? && Guard(h, i) in v.cancelQ)
  {
    ReachableInv(v);
  }

  /** So once every handler is finished and both queues are empty, nothing is tracked. */
  lemma NothingLeftBehind(v: Server)
    requires Reachable(v) && v.respQ == [] && v.cancelQ == []
    requires forall h :: 0 <= h < |v.handlers| ==> !v.handlers[h].phase.Fresh? && !v.handlers[h].phase.Armed?
    ensures v.flights.slots == map[]
  {
    forall i | i in v.flights.slots ensures false {
      NoLeak(v, i);
    }
  }

  /** A handler is aborted only by a later cancel for its id, after its deadline, or with the channel. */
  lemma AbortHasReason(v: Server, h: Handle)
    requires Reachable(v) && h in v.aborted
    ensures h < |v.handlers|
    ensures match v.aborted[h]
            case CancelArrived(p) =>
              v.handlers[h].at < p < |v.received| && v.received[p] == Cancel(v.handlers[h].req.id)
            case DeadlinePassed => v.handlers[h].req.deadline <= v.now
            case ChannelDropped => !v.alive
    ensures forall i :: i in v.flights.slots ==> v.flights.slots[i].data != h
  {
    ReachableInv(v);
  }

  /** A cancel for a tracked request, and the expiry of one, stop its handler on the spot. */
  lemma CancelAborts(v: Server, i: Id, key: Key)
    requires Reachable(v) && i in v.flights.slots && Step(v, Take(Cancel(i), key)).Some?
    ensures var n := Step(v, Take(Cancel(i), key)).value;
            && i !in n.flights.slots && n.aborted == v.aborted[v.flights.slots[i].data := CancelArrived(|v.received|)]
            && n.received == v.received + [Cancel(i)] && n.handlers == v.handlers && n.sent == v.sent
  {
  }

  lemma ExpiryAborts(v: Server, key: Key)
    requires Reachable(v) && Step(v, Expire(key)).Some?
    ensures var i := v.flights.timers[key].id;
            && i in v.flights.slots && i !in Step(v, Expire(key)).value.flights.slots
            && Step(v, Expire(key)).value.aborted == v.aborted[v.flights.slots[i].data := DeadlinePassed]
  {
    ReachableInv(v);
  }

  /**
   The converse of `AbortHasReason`: a handler at work is tracked or was told to stop, unless another
   request was accepted under its id; once the channel is dropped, all of them were told to stop.
   */
  lemma AtWorkIsTrackedOrAborted(v: Server, h: Handle)
    requires Reachable(v) && h < |v.handlers| && (v.handlers[h].phase.Fresh? || v.handlers[h].phase.Armed?)
    requires CountCalls(v.received, v.handlers[h].req.id) <= 1
    ensures || h in v.aborted
            || (v.alive && v.handlers[h].req.id in v.flights.slots && v.flights.slots[v.handlers[h].req.id].data == h)
  {
    ReachableInv(v);
    OnlyHandler(v, h);
    assert HeededAt(v.flights.slots, v.handlers, v.aborted, h);
  }

  lemma OnlyHandler(v: Server, h: Handle)
    requires HandlersOk(v.handlers, v.received) && h < |v.handlers|
    requires CountCalls(v.received, v.handlers[h].req.id) <= 1
    ensures OnlyOne(v.handlers, h)
  {
    forall k | 0 <= k < |v.handlers| && v.handlers[k].req.id == v.handlers[h].req.id ensures k == h {
      if k < h {
        TwoCalls(v.received, v.handlers[k].at, v.handlers[h].at);
      } else if h < k {
        TwoCalls(v.received, v.handlers[h].at, v.handlers[k].at);
      }
    }
  }

  lemma {:induction false} OneCall(ms: seq<ClientMessage>, p: nat)
    requires p < |ms| && ms[p].Call?
    ensures CountCalls(ms, ms[p].request.id) >= 1
    decreases |ms|
  {
    if p == |ms| - 1 {
    } else {
      OneCall(ms[..|ms| - 1], p);
    }
  }

  lemma {:induction false} TwoCalls(ms: seq<ClientMessage>, p: nat, q: nat)
    requires p < q < |ms| && ms[p].Call? && ms[q].Call? && ms[p].request.id == ms[q].request.id
    ensures CountCalls(ms, ms[p].request.id) >= 2
    decreases |ms|
  {
    if q == |ms| - 1 {
      OneCall(ms[..|ms| - 1], p);
    } else {
      TwoCalls(ms[..|ms| - 1], p, q);
    }
  }

  /**
   Every end is what it is recorded as: after a cancel or a deadline some handler of the request was
   told to stop for that reason, after a guard it was dropped, after an answer or a lost one it was done.
   */
  lemma EndsAreTrue(v: Server, p: nat) returns (h: Handle)
    requires Reachable(v) && p < |v.acts| && v.acts[p].End?
    ensures h < |v.handlers| && v.handlers[h].req.id == v.acts[p].id
    ensures EndedBy(v.handlers[h].phase, WhyOf(v.aborted, h), v.acts[p].how)
  {
    ReachableInv(v);
    h := EndedHandler(v, p);
  }

  lemma EndedHandler(v: Server, p: nat) returns (h: Handle)
    requires EndTrue(v.acts, v.handlers, v.aborted, p) && p < |v.acts| && v.acts[p].End?
    ensures h < |v.handlers| && v.handlers[h].req.id == v.acts[p].id
    ensures EndedBy(v.handlers[h].phase, WhyOf(v.aborted, h), v.acts[p].how)
  {
    var i, how := v.acts[p].id, v.acts[p].how;
    h :| 0 <= h < |v.handlers| && v.handlers[h].req.id == i && EndedBy(v.handlers[h].phase, WhyOf(v.aborted, h), how);
  }

  /** No cancel for a tracked request was read since it started: a cancel always ends its request. */
  lemma CancelEndsTracking(v: Server, i: Id, p: nat)
    requires Reachable(v) && p < |v.received| && v.received[p] == Cancel(i)
    ensures i in v.flights.slots ==>
              v.flights.slots[i].data < |v.handlers| && p < v.handlers[v.flights.slots[i].data].at
  {
    ReachableInv(v);
    if i in v.flights.slots {
      TrackedSinceCancel(v, i, p);
    }
  }

  lemma TrackedSinceCancel(v: Server, i: Id, p: nat)
    requires Inv(v) && p < |v.received| && v.received[p] == Cancel(i) && i in v.flights.slots
    ensures v.flights.slots[i].data < |v.handlers| && p < v.handlers[v.flights.slots[i].data].at
  {
    assert UncancelledAt(v.flights.slots, v.handlers, v.received, i);
  }

  /** No request is lost: each one read was accepted, or repeats the id of one that was. */
  lemma EveryRequestIsAccepted(v: Server, p: nat) returns (h: Handle)
    requires Reachable(v) && p < |v.received| && v.received[p].Call?
    ensures h < |v.handlers| && v.handlers[h].req.id == v.received[p].request.id
  {
    ReachableInv(v);
    assert Started(v.handlers, v.received[p].request.id);
    h :| 0 <= h < |v.handlers| && v.handlers[h].req.id == v.received[p].request.id;
  }

  /** What was read stays read, and a handler keeps its request and its message. */
  ghost predicate Extends(v: Server, v': Server, h: Handle) {
    && v.received <= v'.received
    && (h < |v.handlers| ==>
          h < |v'.handlers| && v'.handlers[h].req == v.handlers[h].req && v'.handlers[h].at == v.handlers[h].at)
  }

  lemma StepExtends(v: Server, e: Event, h: Handle)
    requires Step(v, e).Some?
    ensures Extends(v, Step(v, e).value, h)
  {
  }

  lemma {:induction false} ExecExtends(v: Server, es: seq<Event>, h: Handle)
    requires Exec(v, es).Some?
    ensures Extends(v, Exec(v, es).value, h)
    decreases |es|
  {
    hide Step;
    if es == [] {
    } else {
      StepExtends(v, es[0], h);
      ExecExtends(Step(v, es[0]).value, es[1..], h);
    }
  }

  /** The message at `p`, to be read in `u`, repeats an id tracked there or started handler `h`, as seen in `v`. */
  ghost predicate Taken(u: Server, v: Server, p: nat, h: Handle) {
    && |u.received| == p < |v.received| && v.received[p].Call?
    && (v.received[p].request.id in u.flights.slots
        || (h == |u.handlers| < |v.handlers| && v.handlers[h].at == p && v.handlers[h].req == v.received[p].request))
  }

  lemma TakenHere(u: Server, e: Event, es: seq<Event>, p: nat)
    requires Step(u, e).Some? && |u.received| == p < |Step(u, e).value.received| && Exec(Step(u, e).value, es).Some?
    requires e.Take? && e.msg.Call?
    ensures Taken(u, Exec(Step(u, e).value, es).value, p, |u.handlers|)
  {
    ExecExtends(Step(u, e).value, es, |u.handlers|);
  }

  /**
   Over any stretch of any run, every request read either repeats an id that is tracked at that very
   moment, or starts a handler of its own.
   */
  lemma {:induction false} EveryCallStartsOrRepeats(v: Server, es: seq<Event>, p: nat) returns (k: nat, h: Handle)
    requires Exec(v, es).Some? && |v.received| <= p < |Exec(v, es).value.received|
    requires Exec(v, es).value.received[p].Call?
    ensures k < |es| && es[k].Take? && es[k].msg == Exec(v, es).value.received[p]
    ensures Exec(v, es[..k]).Some? && Taken(Exec(v, es[..k]).value, Exec(v, es).value, p, h)
    ensures |v.handlers| <= h
    decreases |es|
  {
    hide Taken;
    var n := Step(v, es[0]).value;
    ExecExtends(n, es[1..], 0);
    ReadsAtMostOne(v, es[0]);
    if p < |n.received| {
      k, h := 0, |v.handlers|;
      assert es[..0] == [];
      TakenHere(v, es[0], es[1..], p);
    } else {
      var j;
      j, h := EveryCallStartsOrRepeats(n, es[1..], p);
      k := j + 1;
      assert es[..k][0] == es[0] && es[..k][1..] == es[1..][..j];
    }
  }

  lemma ReadsAtMostOne(v: Server, e: Event)
    requires Step(v, e).Some?
    ensures var n := Step(v, e).value;
            && |v.handlers| <= |n.handlers|
            && n.received == if e.Take? then v.received + [e.msg] else v.received
  {
  }

  // ------------------------------------------------------------------ response discipline

  function CountEnds(acts: seq<Act>, i: Id): nat {
    if acts == [] then 0
    else CountEnds(acts[..|acts| - 1], i) + (if acts[|acts| - 1].End? && acts[|acts| - 1].id == i then 1 else 0)
  }

  /** Starts and ends of an id balance, up to the one that is tracked now. */
  lemma {:induction false} EndsBalance(acts: seq<Act>, i: Id)
    requires Alternates(acts)
    ensures CountEnds(acts, i) + (if LiveIn(acts, i) then 1 else 0) == CountActs(acts, Start(i))
    ensures CountActs(acts, End(i, Answered)) <= CountEnds(acts, i)
    decreases |acts|
  {
    if acts == [] {
    } else {
      EndsBalance(acts[..|acts| - 1], i);
    }
  }

  lemma RepliesFitStarts(v: Server, i: Id)
    requires Inv(v)
    ensures CountReplies(v.sent, i) + (if i in v.flights.slots then 1
          else 0) <= CountActs(v.acts, Start(i)) <= CountCalls(v.received, i)
  {
    assert CountOk(i, v.acts, v.received, v.sent);
    EndsBalance(v.acts, i);
  }

  /** Responses written for an id, plus one if it is tracked, never outnumber its accepted starts. */
  lemma ResponsesNeverOutnumberStarts(v: Server, i: Id)
    requires Reachable(v)
    ensures CountReplies(v.sent, i) + (if i in v.flights.slots then 1
          else 0) <= CountActs(v.acts, Start(i)) <= CountCalls(v.received, i)
  {
    ReachableInv(v);
    RepliesFitStarts(v, i);
  }

  /** When the channel ends with nothing tracked, every accepted request has ended, for a recorded reason. */
  lemma EveryStartEnded(v: Server, i: Id)
    requires Reachable(v) && v.alive && v.flights.slots == map[]
    ensures CountEnds(v.acts, i) == CountActs(v.acts, Start(i))
  {
    ReachableInv(v);
    EndsBalance(v.acts, i);
  }

  lemma {:induction false} PrefixAlternates(acts: seq<Act>, n: nat)
    requires Alternates(acts) && n <= |acts|
    ensures Alternates(acts[..n])
    ensures n < |acts| && acts[n].End? ==> LiveIn(acts[..n], acts[n].id)
    decreases |acts|
  {
    if n == |acts| {
      assert acts[..n] == acts;
    } else {
      PrefixAlternates(acts[..|acts| - 1], n);
      assert acts[..|acts| - 1][..n] == acts[..n];
    }
  }

  /** A tracked id started after the last time it ended. */
  lemma {:induction false} LiveNeedsStart(acts: seq<Act>, p: nat, i: Id) returns (r: nat)
    requires p < |acts| && acts[p].End? && acts[p].id == i && LiveIn(acts, i)
    ensures p < r < |acts| && acts[r] == Start(i)
    decreases |acts|
  {
    var last := |acts| - 1;
    if acts[last].id == i {
      r := last;
    } else {
      r := LiveNeedsStart(acts[..last], p, i);
    }
  }

  /**
   After a request was cancelled, expired, dropped or answered, no response is written for its id
   until a request with that id is accepted again, even if the handler had already queued one.
   */
  lemma NoAnswerAfterTheEnd(v: Server, p: nat, q: nat) returns (r: nat)
    requires Reachable(v) && p < q < |v.acts|
    requires v.acts[p].End? && v.acts[q] == End(v.acts[p].id, Answered)
    ensures p < r < q && v.acts[r] == Start(v.acts[p].id)
  {
    ReachableInv(v);
    PrefixAlternates(v.acts, q);
    assert v.acts[..q][p] == v.acts[p];
    r := LiveNeedsStart(v.acts[..q], p, v.acts[p].id);
  }

  lemma {:induction false} TwoStarts(acts: seq<Act>, p: nat, r: nat)
    requires p < r < |acts| && acts[p] == acts[r]
    ensures CountActs(acts, acts[p]) >= 2
    decreases |acts|
  {
    var last := |acts| - 1;
    if r == last {
      OneStart(acts[..last], p);
    } else {
      TwoStarts(acts[..last], p, r);
    }
  }

  lemma {:induction false} OneStart(acts: seq<Act>, p: nat)
    requires p < |acts|
    ensures CountActs(acts, acts[p]) >= 1
    decreases |acts|
  {
    if p == |acts| - 1 {
    } else {
      OneStart(acts[..|acts| - 1], p);
    }
  }

  /** With an id used for one request only, its end is final: nothing is written afterwards. */
  lemma NoAnswerAfterCancel(v: Server, p: nat)
    requires Reachable(v) && p < |v.acts| && v.acts[p].End? && CountCalls(v.received, v.acts[p].id) <= 1
    ensures forall q :: p < q < |v.acts| ==> v.acts[q].id != v.acts[p].id
  {
    ReachableInv(v);
    EndOfUniqueId(v, p);
  }

  lemma EndOfUniqueId(v: Server, p: nat)
    requires Inv(v) && p < |v.acts| && v.acts[p].End? && CountCalls(v.received, v.acts[p].id) <= 1
    ensures forall q :: p < q < |v.acts| ==> v.acts[q].id != v.acts[p].id
  {
    var i := v.acts[p].id;
    assert CountOk(i, v.acts, v.received, v.sent);
    PrefixAlternates(v.acts, p);
    forall q | p < q < |v.acts| && v.acts[q].id == i ensures false {
      var s := LiveStart(v.acts[..p], i);
      var r: nat := q;
      if v.acts[q].End? {
        PrefixAlternates(v.acts, q);
        assert v.acts[..q][p] == v.acts[p];
        r := LiveNeedsStart(v.acts[..q], p, i);
      }
      assert v.acts[s] == v.acts[..p][s] && v.acts[r] == Start(i);
      TwoStarts(v.acts, s, r);
    }
  }

  /** A tracked id started at some point. */
  lemma {:induction false} LiveStart(acts: seq<Act>, i: Id) returns (s: nat)
    requires LiveIn(acts, i)
    ensures s < |acts| && acts[s] == Start(i)
    decreases |acts|
  {
    var last := |acts| - 1;
    if acts[last].id == i {
      s := last;
    } else {
      s := LiveStart(acts[..last], i);
    }
  }

  // ------------------------------------------------------------------ order

  ghost predicate Ahead(replies: seq<Reply>, h: Handle, k: Handle) {
    forall p, q :: 0 <= p < |replies| && 0 <= q < |replies| && replies[p].origin == h && replies[q].origin == k ==>
      p < q
  }

  ghost predicate NoneOf(replies: seq<Reply>, h: Handle) {
    forall p :: 0 <= p < |replies| ==> replies[p].origin != h
  }

  /** Handler `h` responded before handler `k`, and is still ahead of it. */
  ghost predicate InOrder(respQ: seq<Reply>, sent: seq<Reply>, h: Handle, k: Handle) {
    Ahead(respQ, h, k) && Ahead(sent, h, k) && (NoneOf(respQ, h) || NoneOf(sent, k))
  }

  lemma WriteOrder(respQ: seq<Reply>, sent: seq<Reply>, h: Handle, k: Handle)
    requires InOrder(respQ, sent, h, k) && respQ != [] && h != k
    ensures InOrder(respQ[1..], sent, h, k) && InOrder(respQ[1..], sent + [respQ[0]], h, k)
  {
    var rest := respQ[1..];
    assert forall p :: 0 <= p < |rest| ==> rest[p] == respQ[p + 1];
    if respQ[0].origin == k {
      assert NoneOf(rest, h);
    }
  }

  lemma OtherOrder(respQ: seq<Reply>, sent: seq<Reply>, reply: Reply, h: Handle, k: Handle)
    requires InOrder(respQ, sent, h, k) && reply.origin != h && reply.origin != k
    ensures InOrder(respQ + [reply], sent, h, k) && InOrder(respQ, sent + [reply], h, k)
  {
  }

  /** Both have responded. */
  ghost predicate BothReplied(v: Server, h: Handle, k: Handle) {
    && h != k && h < |v.handlers| && k < |v.handlers|
    && v.handlers[h].phase.Replied? && v.handlers[k].phase.Replied?
  }

  lemma StepOrder(v: Server, e: Event, h: Handle, k: Handle)
    requires BothReplied(v, h, k) && InOrder(v.respQ, v.sent, h, k) && Step(v, e).Some?
    ensures var n := Step(v, e).value; BothReplied(n, h, k) && InOrder(n.respQ, n.sent, h, k)
  {
    hide InOrder;
    match e {
      case Write(_) => WriteOrder(v.respQ, v.sent, h, k);
      case Throttle(j, _) =>
        OtherOrder(v.respQ, v.sent, Reply(j, Response(v.handlers[j].req.id, Err(THROTTLE_ERROR))), h, k);
      case Respond(j, message) =>
        OtherOrder(v.respQ, v.sent, Reply(j, Response(v.handlers[j].req.id, message)), h, k);
      case DropChannel => EmptiedOrder(v.respQ, v.sent, h, k);
      case _ =>
    }
  }

  lemma EmptiedOrder(respQ: seq<Reply>, sent: seq<Reply>, h: Handle, k: Handle)
    requires InOrder(respQ, sent, h, k)
    ensures InOrder([], sent, h, k)
  {
  }

  lemma {:induction false} ExecOrder(v: Server, es: seq<Event>, h: Handle, k: Handle)
    requires BothReplied(v, h, k) && InOrder(v.respQ, v.sent, h, k) && Exec(v, es).Some?
    ensures InOrder(Exec(v, es).value.respQ, Exec(v, es).value.sent, h, k)
    decreases |es|
  {
    hide Step, InOrder, BothReplied;
    if es == [] {
    } else {
      StepOrder(v, es[0], h, k);
      ExecOrder(Step(v, es[0]).value, es[1..], h, k);
    }
  }

  /** The later response goes to the end of the queue. */
  lemma RespondOrder(v: Server, k: Handle, message: Result<Resp, ServerError>, h: Handle)
    requires RepliesOk(v.respQ, v.handlers) && RepliesOk(v.sent, v.handlers) && Step(v, Respond(k, message)).Some?
    requires h < |v.handlers| && v.handlers[h].phase.Replied?
    ensures var n := Step(v, Respond(k, message)).value; BothReplied(n, h, k) && InOrder(n.respQ, n.sent, h, k)
  {
    assert NoneOf(v.respQ, k) && NoneOf(v.sent, k);
  }

  lemma StepReplied(v: Server, e: Event, h: Handle)
    requires Step(v, e).Some? && h < |v.handlers|
    requires v.handlers[h].phase.Replied? || (e.Respond? && e.h == h)
    ensures h < |Step(v, e).value.handlers| && Step(v, e).value.handlers[h].phase.Replied?
  {
  }

  lemma {:induction false} LaterResponse(v: Server, es: seq<Event>, q: nat, h: Handle)
    requires Inv(v) && Exec(v, es).Some? && q < |es| && es[q].Respond?
    requires h < |v.handlers| && v.handlers[h].phase.Replied?
    ensures InOrder(Exec(v, es).value.respQ, Exec(v, es).value.sent, h, es[q].h)
    decreases |es|
  {
    hide Step, InOrder, BothReplied, History, Cares, Origins, Uncancelled, Heeded;
    if q == 0 {
      RespondOrder(v, es[0].h, es[0].message, h);
      ExecOrder(Step(v, es[0]).value, es[1..], h, es[0].h);
    } else {
      StepInv(v, es[0]);
      StepReplied(v, es[0], h);
      LaterResponse(Step(v, es[0]).value, es[1..], q - 1, h);
    }
  }

  lemma {:induction false} ResponsesInRun(v: Server, es: seq<Event>, p: nat, q: nat)
    requires Inv(v) && Exec(v, es).Some? && p < q < |es| && es[p].Respond? && es[q].Respond?
    ensures InOrder(Exec(v, es).value.respQ, Exec(v, es).value.sent, es[p].h, es[q].h)
    decreases |es|
  {
    hide InOrder, Inv;
    StepInv(v, es[0]);
    if p == 0 {
      StepReplied(v, es[0], es[0].h);
      LaterResponse(Step(v, es[0]).value, es[1..], q - 1, es[0].h);
    } else {
      ResponsesInRun(Step(v, es[0]).value, es[1..], p - 1, q - 1);
    }
  }

  /** Of two responses that are written, the one given first is written first. */
  lemma RespondedInOrder(es: seq<Event>, p: nat, q: nat, a: nat, b: nat)
    requires Exec(Init(), es).Some? && p < q < |es| && es[p].Respond? && es[q].Respond?
    requires var sent := Exec(Init(), es).value.sent;
             a < |sent| && sent[a].origin == es[p].h && b < |sent| && sent[b].origin == es[q].h
    ensures a < b
  {
    InitInv();
    ResponsesInRun(Init(), es, p, q);
  }

  // ------------------------------------------------------------------ reused ids

  /** The response about to be written belongs to the tracked request exactly if its id was not reused meanwhile. */
  lemma OwnReplyIffNotReused(v: Server)
    requires Reachable(v) && v.alive && v.respQ != [] && v.respQ[0].resp.id in v.flights.slots
    ensures v.respQ[0].origin < |v.handlers|
    ensures v.respQ[0].origin == v.flights.slots[v.respQ[0].resp.id].data <==> Latest(v.handlers, v.respQ[0].origin)
  {
    ReachableInv(v);
    assert FromHandler(v.handlers, v.respQ[0]);
  }

  lemma NewServer() returns (v: Server)
    ensures v == Init() && Reachable(v)
  {
    v := Init();
    assert Exec(v, []) == Some(v);
  }

  /** Reusing a cancelled id while its response is still queued sends that response to the new request. */
  lemma ReuseCrossesTalk(i: Id, a: Req, b: Req, m: Result<Resp, ServerError>) returns (v: Server)
    ensures Reachable(v) && |v.handlers| == 2 && v.handlers[0].req.body == a && v.handlers[1].req.body == b
    ensures v.acts == [Start(i), End(i, ByCancel), Start(i), End(i, Answered)]
    ensures v.sent == [Reply(0, Response(i, m))]
  {
    hide Reachable;
    v := NewServer();
    v := Continue(v, Take(Call(Request(i, 0, a)), 0));
    v := Continue(v, Arm(0));
    v := Continue(v, Respond(0, m));
    v := Continue(v, Take(Cancel(i), 0));
    v := Continue(v, Take(Call(Request(i, 0, b)), 0));
    v := Continue(v, Write(true));
  }

  /** A guard's cancellation untracks its own request exactly if the id was not reused meanwhile. */
  lemma OwnGuardIffNotReused(v: Server)
    requires Reachable(v) && v.alive && v.cancelQ != [] && v.cancelQ[0].id in v.flights.slots
    ensures v.cancelQ[0].origin < |v.handlers|
    ensures v.cancelQ[0].origin == v.flights.slots[v.cancelQ[0].id].data <==> Latest(v.handlers, v.cancelQ[0].origin)
  {
    ReachableInv(v);
  }

  /**
   Reusing a cancelled id while its handler's guard is still to be heard makes that guard untrack the
   new request, whose handler goes on unaborted and whose response will not be written.
   */
  lemma ReuseUntracksAnother(i: Id, a: Req, b: Req) returns (v: Server)
    ensures Reachable(v) && |v.handlers| == 2 && v.handlers[0].req.body == a && v.handlers[1].req.body == b
    ensures v.acts == [Start(i), End(i, ByCancel), Start(i), End(i, ByGuard)]
    ensures v.handlers[1].phase == Armed && 1 !in v.aborted && i !in v.flights.slots
  {
    hide Reachable;
    v := NewServer();
    v := Continue(v, Take(Call(Request(i, 0, a)), 0));
    v := Continue(v, Arm(0));
    v := Continue(v, Take(Cancel(i), 0));
    v := Continue(v, DropHandler(0));
    v := Continue(v, Take(Call(Request(i, 0, b)), 0));
    v := Continue(v, Arm(1));
    v := Continue(v, TakeGuard);
  }
}
