/**
 What `Requests`, alone or around a throttler, adds to a channel: every request the channel yields is
 at once given to a guarded handler or turned away. The discipline is stated on the events of a run,
 and the streams are proved to obey it.
 */
module Discipline {
  import opened Types
  import opened Flights
  import opened ServerProtocol
  import opened ServerProofs
  import opened ServerTheorems

  /** What the stream knows and owes. */
  datatype Duty =
    | Free                                                  // nothing
    | Checked(count: nat)                                   // the throttler saw so many in flight
    | Holding(h: Handle, seen: Option<nat>, read: nat)      // to see to a handler that was just started
  // read: how many were in flight when it started

  /** The channel accepts a request. */
  predicate Starts(v: Server, e: Event) {
    e.Take? && e.msg.Call? && e.msg.request.id !in v.flights.slots
  }

  /** The channel may be polled: at any time without a throttler, after its check with one. */
  predicate Reading(limit: Option<nat>, duty: Duty) {
    if limit.None? then duty.Free? else duty.Checked?
  }

  function Seen(duty: Duty): Option<nat> {
    if duty.Checked? then Some(duty.count) else None
  }

  /** The limit was reached at the check. */
  predicate Full(limit: Option<nat>, seen: Option<nat>) {
    limit.Some? && seen.Some? && limit.value <= seen.value
  }

  /**
   The stream does nothing else before it has seen to a handler it holds. It turns the handler away if
   the throttler's check found the limit reached, and hands it out otherwise. The throttler checks once
   before each request, and responses are written between its polls. Handlers and clocks move freely.
   */
  function Next(limit: Option<nat>, duty: Duty, v: Server, e: Event): Option<Duty> {
    match e
    case Check => if limit.Some? && duty.Free? then Some(Checked(|v.flights.slots|)) else None
    case Leave => if duty.Checked? then Some(Free) else None
    case Take(_, _) =>
      if !Reading(limit, duty) then None
      else if Starts(v, e) then Some(Holding(|v.handlers|, Seen(duty), |v.flights.slots|))
      else Some(duty)
    case TakeGuard => if Reading(limit, duty) then Some(duty) else None
    case Expire(_) => if Reading(limit, duty) then Some(duty) else None
    case Arm(h) => if duty.Holding? && duty.h == h && !Full(limit, duty.seen) then Some(Free) else None
    case Throttle(h, _) => if duty.Holding? && duty.h == h && Full(limit, duty.seen) then Some(Free) else None
    case Write(_) => if duty.Free? then Some(Free) else None
    case DropChannel => if duty.Free? then Some(Free) else None
    case Respond(_, _) => Some(duty)
    case SeeAbort(_) => Some(duty)
    case DropHandler(_) => Some(duty)
    case Tick(_) => Some(duty)
  }

  /** The duty after a run, if the run obeys the discipline. */
  ghost function Watch(limit: Option<nat>, duty: Duty, v: Server, es: seq<Event>): Option<Duty>
    decreases |es|
  {
    if es == [] then Some(duty)
    else
      var after, first := Next(limit, duty, v, es[0]), Step(v, es[0]);
      if after.None? || first.None? then None else Watch(limit, after.value, first.value, es[1..])
  }

  /** The events lead from one state and duty to another. */
  ghost predicate Leads(limit: Option<nat>, v: Server, duty: Duty, es: seq<Event>, v': Server, duty': Duty) {
    Exec(v, es) == Some(v') && Watch(limit, duty, v, es) == Some(duty')
  }

  lemma LeadsNowhere(limit: Option<nat>, v: Server, duty: Duty)
    ensures Leads(limit, v, duty, [], v, duty)
  {
  }

  lemma LeadsOne(limit: Option<nat>, v: Server, duty: Duty, e: Event)
    requires Step(v, e).Some? && Next(limit, duty, v, e).Some?
    ensures Leads(limit, v, duty, [e], Step(v, e).value, Next(limit, duty, v, e).value)
  {
    assert [e][1..] == [];
  }

  lemma {:induction false} LeadsOn(limit: Option<nat>, v: Server, duty: Duty, xs: seq<Event>, w: Server, mid: Duty,
                                   ys: seq<Event>, x: Server, end: Duty)
    requires Leads(limit, v, duty, xs, w, mid) && Leads(limit, w, mid, ys, x, end)
    ensures Leads(limit, v, duty, xs + ys, x, end)
    decreases |xs|
  {
    if xs == [] {
      assert xs + ys == ys;
    } else {
      assert (xs + ys)[1..] == xs[1..] + ys;
      LeadsOn(limit, Step(v, xs[0]).value, Next(limit, duty, v, xs[0]).value, xs[1..], w, mid, ys, x, end);
    }
  }

  // ------------------------------------------------------------------ what the discipline keeps

  /** Only the handler the stream holds is without an active guard, and its request is tracked. */
  ghost predicate HeldOk(duty: Duty, handlers: seq<Handler>, slots: map<Id, Slot<Handle>>) {
    && (forall h :: 0 <= h < |handlers| && handlers[h].phase.Fresh? ==> duty.Holding? && h == duty.h)
    && (duty.Holding? ==>
          duty.h < |handlers| && handlers[duty.h].phase.Fresh? && handlers[duty.h].req.id in slots)
  }

  /** At most the limit is tracked besides the handler held, and no more than the check saw. */
  ghost predicate LimitOk(limit: Option<nat>, duty: Duty, tracked: nat) {
    match duty
    case Free => limit.Some? ==> tracked <= limit.value
    case Checked(count) => limit.Some? && tracked <= count <= limit.value
    case Holding(_, seen, read) =>
      tracked == read + 1 && seen.Some? == limit.Some? && (limit.Some? ==> read <= seen.value <= limit.value)
  }

  ghost predicate Kept(limit: Option<nat>, duty: Duty, v: Server) {
    HeldOk(duty, v.handlers, v.flights.slots) && LimitOk(limit, duty, |v.flights.slots|)
  }

  lemma KeysCount(m: map<Id, Slot<Handle>>, n: map<Id, Slot<Handle>>)
    requires m.Keys <= n.Keys
    ensures |m| <= |n|
  {
    assert |n.Keys - m.Keys| == |n.Keys| - |m.Keys|;
    assert |m| == |m.Keys| && |n| == |n.Keys|;
  }

  lemma InsertCount(m: map<Id, Slot<Handle>>, i: Id, slot: Slot<Handle>)
    requires i !in m
    ensures |m[i := slot]| == |m| + 1
  {
    assert m[i := slot].Keys == m.Keys + {i};
    assert |m[i := slot]| == |m[i := slot].Keys| && |m| == |m.Keys|;
  }

  /** Only reading can add to what is in flight. */
  lemma OnlyReadingAdds(v: Server, e: Event)
    requires v.flights.Agree() && Step(v, e).Some? && !Starts(v, e)
    ensures Step(v, e).value.flights.slots.Keys <= v.flights.slots.Keys
    ensures |Step(v, e).value.flights.slots| <= |v.flights.slots|
  {
    if e.Expire? {
      ExpireIsRemove(v.flights, e.key);
    }
    KeysCount(Step(v, e).value.flights.slots, v.flights.slots);
  }

  lemma StartKept(limit: Option<nat>, duty: Duty, v: Server, e: Event)
    requires Kept(limit, duty, v) && Starts(v, e) && Step(v, e).Some? && Next(limit, duty, v, e).Some?
    ensures Kept(limit, Next(limit, duty, v, e).value, Step(v, e).value)
  {
    InsertCount(v.flights.slots, e.msg.request.id, Slot(|v.handlers|, e.key));
  }

  /** The stream's other steps happen with nothing held. */
  lemma FreeKept(limit: Option<nat>, duty: Duty, v: Server, e: Event)
    requires v.flights.Agree() && Kept(limit, duty, v) && Step(v, e).Some? && Next(limit, duty, v, e).Some?
    requires !Starts(v, e) && !duty.Holding?
    requires e.Take? || e.TakeGuard? || e.Expire? || e.Write? || e.DropChannel? || e.Check? || e.Leave?
    ensures Kept(limit, Next(limit, duty, v, e).value, Step(v, e).value)
  {
    OnlyReadingAdds(v, e);
    assert Step(v, e).value.handlers == v.handlers;
  }

  /** The stream sees to the handler it holds. */
  lemma SeenToKept(limit: Option<nat>, duty: Duty, v: Server, e: Event)
    requires Kept(limit, duty, v) && (e.Arm? || e.Throttle?) && Step(v, e).Some? && Next(limit, duty, v, e).Some?
    ensures Kept(limit, Free, Step(v, e).value)
  {
    if e.Throttle? {
      RemoveShrinks(v.flights.slots, v.handlers[e.h].req.id);
    }
  }

  lemma HandlerKept(limit: Option<nat>, duty: Duty, v: Server, e: Event)
    requires Kept(limit, duty, v) && Step(v, e).Some? && (e.Respond? || e.SeeAbort? || e.DropHandler? || e.Tick?)
    ensures Kept(limit, duty, Step(v, e).value)
  {
  }

  lemma StepKept(limit: Option<nat>, duty: Duty, v: Server, e: Event)
    requires Inv(v) && Kept(limit, duty, v) && Step(v, e).Some? && Next(limit, duty, v, e).Some?
    ensures Kept(limit, Next(limit, duty, v, e).value, Step(v, e).value)
  {
    hide Step, Kept, TrackedOk, RepliesOk, HandlersOk, AbortsOk, TimersOk, History, Cares, Origins;
    match e {
      case Arm(_) => SeenToKept(limit, duty, v, e);
      case Throttle(_, _) => SeenToKept(limit, duty, v, e);
      case Respond(_, _) => HandlerKept(limit, duty, v, e);
      case SeeAbort(_) => HandlerKept(limit, duty, v, e);
      case DropHandler(_) => HandlerKept(limit, duty, v, e);
      case Tick(_) => HandlerKept(limit, duty, v, e);
      case _ =>
        if Starts(v, e) {
          StartKept(limit, duty, v, e);
        } else {
          FreeKept(limit, duty, v, e);
        }
    }
  }

  lemma {:induction false} LeadsKept(limit: Option<nat>, v: Server, duty: Duty, es: seq<Event>, v': Server, duty': Duty)
    requires Inv(v) && Kept(limit, duty, v) && Leads(limit, v, duty, es, v', duty')
    ensures Inv(v') && Kept(limit, duty', v')
    decreases |es|
  {
    hide Inv, Kept, Step, Next;
    if es == [] {
    } else {
      StepInv(v, es[0]);
      StepKept(limit, duty, v, es[0]);
      LeadsKept(limit, Step(v, es[0]).value, Next(limit, duty, v, es[0]).value, es[1..], v', duty');
    }
  }

  // ------------------------------------------------------------------ theorems

  /** A point of a run in which the stream obeys the discipline. */
  ghost predicate Disciplined(limit: Option<nat>, v: Server, duty: Duty) {
    exists es :: Leads(limit, Init(), Free, es, v, duty)
  }

  lemma DisciplinedKept(limit: Option<nat>, v: Server, duty: Duty)
    requires Disciplined(limit, v, duty)
    ensures Reachable(v) && Inv(v) && Kept(limit, duty, v)
  {
    hide Inv;
    var es :| Leads(limit, Init(), Free, es, v, duty);
    assert Exec(Init(), es) == Some(v);
    InitInv();
    LeadsKept(limit, Init(), Free, es, v, duty);
  }

  /** What leads on from a point of such a run leads to another. */
  lemma StaysDisciplined(limit: Option<nat>, v: Server, duty: Duty, es: seq<Event>, v': Server, duty': Duty)
    requires Disciplined(limit, v, duty) && Leads(limit, v, duty, es, v', duty')
    ensures Disciplined(limit, v', duty')
  {
    var before :| Leads(limit, Init(), Free, before, v, duty);
    LeadsOn(limit, Init(), Free, before, v, duty, es, v', duty');
  }

  /** Handlers and clocks may move at any time. */
  lemma HandlersMoveFreely(limit: Option<nat>, v: Server, duty: Duty, e: Event)
    requires Disciplined(limit, v, duty) && Step(v, e).Some?
    requires e.Respond? || e.SeeAbort? || e.DropHandler? || e.Tick?
    ensures Disciplined(limit, Step(v, e).value, duty)
  {
    LeadsOne(limit, v, duty, e);
    StaysDisciplined(limit, v, duty, [e], Step(v, e).value, duty);
  }

  /**
   At every point of every run a limited channel tracks at most its limit, and one more exactly while
   the throttler holds a request that it read when the limit was reached.
   */
  lemma LimitOverRuns(limit: nat, v: Server, duty: Duty)
    requires Disciplined(Some(limit), v, duty)
    ensures |v.flights.slots| <= limit + 1
    ensures |v.flights.slots| == limit + 1 <==> duty.Holding? && duty.read == limit
    ensures duty.Holding? <==> exists h :: 0 <= h < |v.handlers| && v.handlers[h].phase.Fresh?
  {
    DisciplinedKept(Some(limit), v, duty);
  }

  /**
   Between polls, every tracked request has a live handler with an armed guard, its response in the
   queue, or its own guard's cancellation in the queue.
   */
  lemma NoLeakUnderStream(limit: Option<nat>, v: Server, i: Id)
    requires Disciplined(limit, v, Free) && i in v.flights.slots
    ensures v.flights.slots[i].data < |v.handlers|
    ensures var h := v.flights.slots[i].data;
            || v.handlers[h].phase.Armed?
            || (v.handlers[h].phase.Replied?
                && exists q :: 0 <= q < |v.respQ| && v.respQ[q].origin == h && v.respQ[q].resp.id == i)
            || (v.handlers[h].phase.Dropped? && Guard(h, i) in v.cancelQ)
  {
    DisciplinedKept(limit, v, Free);
    NoLeak(v, i);
  }

  lemma Proceed(limit: nat, v: Server, duty: Duty, e: Event) returns (v': Server, duty': Duty)
    requires Disciplined(Some(limit), v, duty) && Step(v, e).Some? && Next(Some(limit), duty, v, e).Some?
    ensures Disciplined(Some(limit), v', duty')
    ensures Step(v, e) == Some(v') && Next(Some(limit), duty, v, e) == Some(duty')
  {
    v', duty' := Step(v, e).value, Next(Some(limit), duty, v, e).value;
    LeadsOne(Some(limit), v, duty, e);
    StaysDisciplined(Some(limit), v, duty, [e], v', duty');
  }

  lemma NewStream(limit: nat)
    ensures Disciplined(Some(limit), Init(), Free)
  {
    LeadsNowhere(Some(limit), Init(), Free);
  }

  /** One request, accepted, handed out and in flight when its deadline passes. */
  lemma OneOverdue(a: Request, t: Time) returns (v: Server)
    requires a.deadline <= t
    ensures Disciplined(Some(1), v, Free) && v.alive && v.now == t && |v.handlers| == 1
    ensures v.flights.slots == map[a.id := Slot(0, 0)] && v.flights.timers == map[0 := Timer(a.id, a.deadline)]
    ensures v.acts == [Start(a.id)] && v.sent == []
  {
    hide Disciplined;
    NewStream(1);
    var duty;
    v, duty := Proceed(1, Init(), Free, Check);
    v, duty := Proceed(1, v, duty, Take(Call(a), 0));
    v, duty := Proceed(1, v, duty, Arm(0));
    v, duty := Proceed(1, v, duty, Tick(t));
  }

  /** At the limit the throttler checks; then the overdue request expires. */
  lemma OneExpired(a: Request, t: Time) returns (v: Server)
    requires a.deadline <= t
    ensures Disciplined(Some(1), v, Checked(1)) && v.alive && |v.handlers| == 1
    ensures v.flights.slots == map[] && v.flights.timers == map[]
    ensures v.acts == [Start(a.id), End(a.id, ByDeadline)] && v.sent == []
  {
    hide Disciplined;
    v := OneOverdue(a, t);
    var duty;
    v, duty := Proceed(1, v, Free, Check);
    v, duty := Proceed(1, v, duty, Expire(0));
  }

  /**
   At the limit, the poll that clears away an expired request still turns the next one away, though
   nothing is in flight by then.
   */
  lemma TurnedAwayWhileIdle(a: Request, b: Request, t: Time) returns (v: Server)
    requires a.id != b.id && a.deadline <= t
    ensures Disciplined(Some(1), v, Free)
    ensures v.acts == [Start(a.id), End(a.id, ByDeadline), Start(b.id), End(b.id, Answered)]
    ensures v.sent == [Reply(1, Response(b.id, Err(THROTTLE_ERROR)))]
  {
    hide Disciplined;
    v := OneExpired(a, t);
    var duty;
    v, duty := Proceed(1, v, Checked(1), Take(Call(b), 0));
    v, duty := Proceed(1, v, duty, Throttle(1, true));
  }

  // ------------------------------------------------------------------ who is turned away

  lemma {:induction false} LeadsSplit(limit: Option<nat>, v: Server, duty: Duty, es: seq<Event>, v': Server,
                                      duty': Duty, k: nat) returns (w: Server, mid: Duty)
    requires Leads(limit, v, duty, es, v', duty') && k <= |es|
    ensures Leads(limit, v, duty, es[..k], w, mid) && Leads(limit, w, mid, es[k..], v', duty')
    decreases k
  {
    if k == 0 {
      w, mid := v, duty;
      assert es[k..] == es;
    } else {
      w, mid := LeadsSplit(limit, Step(v, es[0]).value, Next(limit, duty, v, es[0]).value, es[1..], v', duty', k - 1);
      assert es[1..][..k - 1] == es[..k][1..] && es[1..][k - 1..] == es[k..];
    }
  }

  lemma LeadsOnly(limit: Option<nat>, v: Server, duty: Duty, e: Event, v': Server, duty': Duty)
    requires Leads(limit, v, duty, [e], v', duty')
    ensures Step(v, e) == Some(v') && Next(limit, duty, v, e) == Some(duty')
  {
    hide Step, Next;
    assert [e][1..] == [];
    assert Step(v, e).Some? && Next(limit, duty, v, e).Some?;
    LeadsNowhere(limit, Step(v, e).value, Next(limit, duty, v, e).value);
  }

  /** The last step of a run. */
  lemma LeadsLast(limit: Option<nat>, v: Server, duty: Duty, es: seq<Event>, v': Server, duty': Duty)
    returns (w: Server, mid: Duty)
    requires Leads(limit, v, duty, es, v', duty') && es != []
    ensures var n := |es| - 1;
            && Leads(limit, v, duty, es[..n], w, mid)
            && Step(w, es[n]) == Some(v') && Next(limit, mid, w, es[n]) == Some(duty')
  {
    var n := |es| - 1;
    w, mid := LeadsSplit(limit, v, duty, es, v', duty', n);
    hide Leads, Step, Next;
    assert es[n..] == [es[n]];
    LeadsOnly(limit, w, mid, es[n], v', duty');
  }

  /** The state after the first `k` events of a run. */
  ghost function At(es: seq<Event>, k: nat): Server
    requires k <= |es|
  {
    var v := Exec(Init(), es[..k]);
    if v.Some? then v.value else Init()
  }

  /** While nothing starts, as many requests end as are no longer tracked. */
  lemma EndsMatch(v: Server, e: Event)
    requires v.flights.Agree() && Step(v, e).Some? && !Starts(v, e) && !e.DropChannel?
    ensures |v.flights.slots| - |Step(v, e).value.flights.slots| == |Step(v, e).value.acts| - |v.acts|
  {
    var i := match e
             case Take(Cancel(j), _) => j
             case TakeGuard => v.cancelQ[0].id
             case Expire(key) => v.flights.timers[key].id
             case Throttle(h, _) => v.handlers[h].req.id
             case Write(_) => v.respQ[0].resp.id
             case _ => 0;
    if i in v.flights.slots {
      RemoveShrinks(v.flights.slots, i);
    }
    if e.Expire? {
      ExpireIsRemove(v.flights, e.key);
    }
  }

  /** From the check at `q` on, up to `k`, nothing starts and the throttler does not check again. */
  ghost predicate SinceCheck(es: seq<Event>, q: nat, k: nat)
    requires q < k <= |es|
  {
    && es[q] == Check && (forall j :: q < j < k ==> es[j] != Check)
    && |At(es, q).flights.slots| - |At(es, k).flights.slots| == |At(es, k).acts| - |At(es, q).acts|
  }

  /** The check that the stream's duty speaks of, and where the handler it holds was started. */
  ghost predicate Traced(es: seq<Event>, k: nat, duty: Duty, q: nat, r: nat)
    requires k <= |es|
  {
    match duty
    case Free => true
    case Checked(count) => q < k && SinceCheck(es, q, k) && count == |At(es, q).flights.slots|
    case Holding(h, seen, read) =>
      && q < r < k && SinceCheck(es, q, r) && (forall j :: q < j < k ==> es[j] != Check)
      && seen == Some(|At(es, q).flights.slots|) && read == |At(es, r).flights.slots|
      && Starts(At(es, r), es[r]) && h == |At(es, r).handlers|
  }

  lemma LeadsHere(limit: Option<nat>, es: seq<Event>, k: nat, v: Server, duty: Duty)
    requires k <= |es| && Leads(limit, Init(), Free, es[..k], v, duty)
    ensures At(es, k) == v && v.flights.Agree() && Kept(limit, duty, v)
  {
    hide Disciplined, Leads, At, Kept;
    LeadsAt(limit, es, k, v, duty);
    DisciplinedAgrees(limit, v, duty);
  }

  lemma LeadsAt(limit: Option<nat>, es: seq<Event>, k: nat, v: Server, duty: Duty)
    requires k <= |es| && Leads(limit, Init(), Free, es[..k], v, duty)
    ensures At(es, k) == v && Disciplined(limit, v, duty)
  {
    hide Watch, Exec;
  }

  lemma DisciplinedAgrees(limit: Option<nat>, v: Server, duty: Duty)
    requires Disciplined(limit, v, duty)
    ensures v.flights.Agree() && Kept(limit, duty, v)
  {
    DisciplinedKept(limit, v, duty);
  }

  lemma {:induction false} TraceDuty(limit: nat, es: seq<Event>, k: nat, v: Server, duty: Duty)
    returns (q: nat, r: nat)
    requires k <= |es| && Leads(Some(limit), Init(), Free, es[..k], v, duty)
    ensures Traced(es, k, duty, q, r)
    decreases k
  {
    hide Leads, Step, Next, SinceCheck, At, Starts;
    q, r := 0, 0;
    if duty.Free? {
    } else if k == 0 {
      LeadsFromNothing(Some(limit), Init(), Free, es[..k], v, duty);
    } else {
      var w, mid := LeadsLast(Some(limit), Init(), Free, es[..k], v, duty);
      assert es[..k][..k - 1] == es[..k - 1];
      LeadsHere(Some(limit), es, k - 1, w, mid);
      LeadsHere(Some(limit), es, k, v, duty);
      q, r := TraceDuty(limit, es, k - 1, w, mid);
      TraceStep(limit, es, k, w, mid, v, duty, q, r);
      q := if es[k - 1].Check? then k - 1 else q;
      r := if Starts(w, es[k - 1]) then k - 1 else r;
    }
  }

  lemma LeadsFromNothing(limit: Option<nat>, v: Server, duty: Duty, es: seq<Event>, v': Server, duty': Duty)
    requires Leads(limit, v, duty, es, v', duty') && es == []
    ensures v' == v && duty' == duty
  {
  }

  lemma TraceStep(limit: nat, es: seq<Event>, k: nat, w: Server, mid: Duty, v: Server, duty: Duty, q: nat, r: nat)
    requires 0 < k <= |es| && Traced(es, k - 1, mid, q, r) && At(es, k - 1) == w && At(es, k) == v && w.flights.Agree()
    requires Step(w, es[k - 1]) == Some(v) && Next(Some(limit), mid, w, es[k - 1]) == Some(duty)
    ensures Traced(es, k, duty, if es[k - 1].Check? then k - 1 else q, if Starts(w, es[k - 1]) then k - 1 else r)
  {
    hide At, Step;
    if !Starts(w, es[k - 1]) && !duty.Free? {
      EndsMatch(w, es[k - 1]);
    }
  }

  /**
   Every request read under a throttler is turned away exactly if the limit was reached at the check
   before it was read; and it is turned away below the limit exactly if something ended in between.
   */
  lemma TurnedAwayIffFullAtCheck(limit: nat, es: seq<Event>, v: Server, duty: Duty, p: nat) returns (q: nat, r: nat)
    requires Leads(Some(limit), Init(), Free, es, v, duty) && p < |es| && (es[p].Throttle? || es[p].Arm?)
    ensures q < r < p && es[q] == Check && (forall j :: q < j < p ==> es[j] != Check)
    ensures Starts(At(es, r), es[r]) && es[p].h == |At(es, r).handlers|
    ensures es[p].Throttle? <==> limit <= |At(es, q).flights.slots|
    ensures es[p].Throttle? ==> (|At(es, r).flights.slots| < limit <==> |At(es, q).acts| < |At(es, r).acts|)
  {
    var u, mid := LeadsSplit(Some(limit), Init(), Free, es, v, duty, p);
    hide Leads, Step, At, Starts, HeldOk;
    LeadsFirst(Some(limit), u, mid, es[p..], v, duty);
    LeadsHere(Some(limit), es, p, u, mid);
    q, r := TraceDuty(limit, es, p, u, mid);
  }

  lemma LeadsFirst(limit: Option<nat>, v: Server, duty: Duty, es: seq<Event>, v': Server, duty': Duty)
    requires Leads(limit, v, duty, es, v', duty') && es != []
    ensures Next(limit, duty, v, es[0]).Some?
  {
  }

  // ------------------------------------------------------------------ lost writes

  /** A write to the transport that fails. */
  predicate Loses(e: Event) {
    e == Write(false) || (e.Throttle? && !e.ok)
  }

  ghost predicate Lossless(es: seq<Event>) {
    forall p :: 0 <= p < |es| ==> !Loses(es[p])
  }

  /** No request ended because its response could not be written. */
  ghost predicate NoneLost(acts: seq<Act>) {
    forall p :: 0 <= p < |acts| ==> !(acts[p].End? && acts[p].how.LostWrite?)
  }

  lemma {:induction false} LosslessRun(v: Server, es: seq<Event>)
    requires NoneLost(v.acts) && Exec(v, es).Some? && Lossless(es)
    ensures NoneLost(Exec(v, es).value.acts)
    decreases |es|
  {
    if es == [] {
    } else {
      LosslessStep(v, es[0]);
      LosslessRun(Step(v, es[0]).value, es[1..]);
    }
  }

  lemma LosslessStep(v: Server, e: Event)
    requires NoneLost(v.acts) && Step(v, e).Some? && !Loses(e)
    ensures NoneLost(Step(v, e).value.acts)
  {
  }

  /** A point of a disciplined run in which no write to the transport has failed. */
  ghost predicate Intact(limit: Option<nat>, v: Server, duty: Duty) {
    exists es :: Leads(limit, Init(), Free, es, v, duty) && Lossless(es)
  }

  lemma NewIsIntact(limit: Option<nat>)
    ensures Intact(limit, Init(), Free)
  {
    LeadsNowhere(limit, Init(), Free);
  }

  lemma IntactIsDisciplined(limit: Option<nat>, v: Server, duty: Duty)
    requires Intact(limit, v, duty)
    ensures Disciplined(limit, v, duty) && NoneLost(v.acts)
  {
    var es :| Leads(limit, Init(), Free, es, v, duty) && Lossless(es);
    LosslessRun(Init(), es);
  }

  lemma StaysIntact(limit: Option<nat>, v: Server, duty: Duty, es: seq<Event>, v': Server, duty': Duty)
    requires Intact(limit, v, duty) && Leads(limit, v, duty, es, v', duty') && Lossless(es)
    ensures Intact(limit, v', duty')
  {
    var before :| Leads(limit, Init(), Free, before, v, duty) && Lossless(before);
    LeadsOn(limit, Init(), Free, before, v, duty, es, v', duty');
  }

  /** Handlers and clocks lose nothing. */
  lemma HandlersStayIntact(limit: Option<nat>, v: Server, duty: Duty, e: Event)
    requires Intact(limit, v, duty) && Step(v, e).Some?
    requires e.Respond? || e.SeeAbort? || e.DropHandler? || e.Tick?
    ensures Intact(limit, Step(v, e).value, duty)
  {
    LeadsOne(limit, v, duty, e);
    StaysIntact(limit, v, duty, [e], Step(v, e).value, duty);
  }

  /** Ends of an id, told apart by their reasons. */
  lemma {:induction false} EndsByReason(acts: seq<Act>, i: Id)
    ensures CountEnds(acts, i)
            == CountActs(acts, End(i, Answered)) + CountActs(acts, End(i, LostWrite))
               + CountActs(acts, End(i, ByCancel)) + CountActs(acts, End(i, ByDeadline))
               + CountActs(acts, End(i, ByGuard))
    ensures NoneLost(acts) ==> CountActs(acts, End(i, LostWrite)) == 0
    decreases |acts|
  {
    if acts == [] {
    } else {
      EndsByReason(acts[..|acts| - 1], i);
    }
  }

  /**
   If no write to the transport has failed and nothing is tracked, every accepted request was answered
   on the wire, cancelled, expired, or given up by its handler's guard.
   */
  lemma EveryStartAccounted(limit: Option<nat>, v: Server, i: Id)
    requires Intact(limit, v, Free) && v.alive && v.flights.slots == map[]
    ensures CountActs(v.acts, Start(i))
            == CountReplies(v.sent, i) + CountActs(v.acts, End(i, ByCancel))
               + CountActs(v.acts, End(i, ByDeadline)) + CountActs(v.acts, End(i, ByGuard))
  {
    IntactIsDisciplined(limit, v, Free);
    DisciplinedKept(limit, v, Free);
    EveryStartEnded(v, i);
    EndsByReason(v.acts, i);
    assert CountOk(i, v.acts, v.received, v.sent);
  }

  // ------------------------------------------------------------------ leading, with or without losses

  /** The events lead there, and no write fails unless `lost` says so. */
  ghost predicate LeadsUnless(lost: bool, limit: Option<nat>, v: Server, duty: Duty, es: seq<Event>, v': Server,
                              duty': Duty) {
    Leads(limit, v, duty, es, v', duty') && (lost || Lossless(es))
  }

  lemma UnlessNowhere(limit: Option<nat>, v: Server, duty: Duty)
    ensures LeadsUnless(false, limit, v, duty, [], v, duty)
  {
  }

  lemma UnlessOne(limit: Option<nat>, v: Server, duty: Duty, e: Event)
    requires Step(v, e).Some? && Next(limit, duty, v, e).Some?
    ensures LeadsUnless(Loses(e), limit, v, duty, [e], Step(v, e).value, Next(limit, duty, v, e).value)
  {
    hide Leads, Step;
    LeadsOne(limit, v, duty, e);
  }

  lemma UnlessOn(limit: Option<nat>, a: bool, v: Server, duty: Duty, xs: seq<Event>, w: Server, mid: Duty,
                 b: bool, ys: seq<Event>, x: Server, end: Duty)
    requires LeadsUnless(a, limit, v, duty, xs, w, mid) && LeadsUnless(b, limit, w, mid, ys, x, end)
    ensures LeadsUnless(a || b, limit, v, duty, xs + ys, x, end)
  {
    hide Leads;
    LeadsOn(limit, v, duty, xs, w, mid, ys, x, end);
  }
}
