/** The client's `InFlightRequests`: requests written to the wire that have no response yet. */
module ClientInFlight {
  import opened Types
  import opened Flights
  import opened DispatchProtocol

  /** The oneshot channels of the calls, shared between the callers and the dispatcher. */
  class Oneshots {
    var txs: Txs
    var closed: set<Id>

    constructor ()
      ensures txs == map[] && closed == {}
    {
      txs, closed := map[], {};
    }

    method Send(i: Id, v: Outcome)
      modifies this`txs
      ensures txs == Deliver(old(txs), closed, i, v)
    {
      if i in txs && txs[i].Held? {
        txs := txs[i := if i in closed then Dropped else Sent(v)];
      }
    }

    method DropSender(i: Id)
      modifies this`txs
      ensures txs == Discard(old(txs), i)
    {
      if i in txs && txs[i].Held? {
        txs := txs[i := Dropped];
      }
    }
  }

  class InFlightRequests {
    var requestData: map<Id, Slot<Time>>
    var deadlines: map<Key, Timer>

    ghost function View(): Flights<Time>
      reads this
    {
      Flights(requestData, deadlines)
    }

    ghost predicate Valid()
      reads this
    {
      View().Agree()
    }

    constructor ()
      ensures Valid() && View() == NoFlights()
    {
      requestData, deadlines := map[], map[];
    }

    /** The queue chooses the key: any that is not in use, so keys are used again after removal. */
    method InsertDeadline(id: Id, expiry: Time) returns (key: Key)
      modifies this`deadlines
      ensures key !in old(deadlines) && deadlines == old(deadlines)[key := Timer(id, expiry)]
    {
      ghost var k := FreeKey(deadlines);
      assert k !in deadlines;
      key :| key !in deadlines;
      deadlines := deadlines[key := Timer(id, expiry)];
    }

    /** The real queue panics on a key that is not there. */
    method RemoveDeadline(key: Key)
      requires key in deadlines
      modifies this`deadlines
      ensures deadlines == old(deadlines) - {key}
    {
      deadlines := deadlines - {key};
    }

    method InsertRequest(id: Id, deadline: Time, now: Time) returns (ok: bool, ghost key: Key)
      requires Valid()
      modifies this
      ensures Valid() && ok == (id !in old(requestData))
      ensures ok ==> key !in old(deadlines) && View() == old(View()).Insert(id, deadline, key, ExpiryOf(now, deadline))
      ensures !ok ==> View() == old(View())
    {
      ok, key := id !in requestData, 0;
      if ok {
        var k := InsertDeadline(id, ExpiryOf(now, deadline));
        requestData := requestData[id := Slot(deadline, k)];
        key := k;
        InsertAgrees(old(View()), id, deadline, k, ExpiryOf(now, deadline));
      }
    }

    method CompleteRequest(id: Id, v: Outcome, oneshots: Oneshots) returns (found: bool)
      requires Valid()
      modifies this, oneshots`txs
      ensures Valid() && found == (id in old(requestData)) && View() == old(View()).Remove(id)
      ensures oneshots.txs == if found then Deliver(old(oneshots.txs), oneshots.closed, id, v) else old(oneshots.txs)
    {
      found := id in requestData;
      if found {
        RemoveAgrees(View(), id);
        var slot := requestData[id];
        requestData := requestData - {id};
        RemoveDeadline(slot.key);
        oneshots.Send(id, v);
      }
    }

    /** Gives every in-flight request the same result, in any order. */
    method CompleteAllRequests(v: Outcome, oneshots: Oneshots)
      modifies this, oneshots`txs
      ensures Valid() && View() == NoFlights()
      ensures oneshots.txs == DeliverTo(old(oneshots.txs), oneshots.closed, old(requestData).Keys, v)
    {
      deadlines := map[];
      ghost var done := {};
      while requestData != map[]
        invariant deadlines == map[] && oneshots.closed == old(oneshots.closed)
        invariant done + requestData.Keys == old(requestData).Keys
        invariant oneshots.txs == DeliverTo(old(oneshots.txs), oneshots.closed, done, v)
        decreases |requestData|
      {
        var i :| i in requestData;
        RemoveShrinks(requestData, i);
        DeliverOneMore(old(oneshots.txs), oneshots.closed, done, i, v);
        requestData := requestData - {i};
        oneshots.Send(i, v);
        done := done + {i};
      }
    }

    method CancelRequest(id: Id, oneshots: Oneshots) returns (found: bool)
      requires Valid()
      modifies this, oneshots`txs
      ensures Valid() && found == (id in old(requestData)) && View() == old(View()).Remove(id)
      ensures oneshots.txs == if found then Discard(old(oneshots.txs), id) else old(oneshots.txs)
    {
      found := id in requestData;
      if found {
        RemoveAgrees(View(), id);
        var slot := requestData[id];
        requestData := requestData - {id};
        RemoveDeadline(slot.key);
        oneshots.DropSender(id);
      }
    }

    /** Yields an expired request, completed with the given error; None if no timer has expired. */
    method PollExpired(now: Time, v: Outcome, oneshots: Oneshots) returns (r: Option<Id>, ghost key: Key)
      requires Valid()
      modifies this, oneshots`txs
      ensures Valid()
      ensures r.None? ==> View() == old(View()) && oneshots.txs == old(oneshots.txs) && NoneExpired(View(), now)
      ensures r.Some? ==>
                && key in old(deadlines) && old(deadlines)[key] == Timer(r.value, old(deadlines)[key].expiry)
                && old(deadlines)[key].expiry <= now
                && r.value in old(requestData) && View() == old(View()).Expire(key) == old(View()).Remove(r.value)
                && oneshots.txs == Deliver(old(oneshots.txs), oneshots.closed, r.value, v)
    {
      r, key := None, 0;
      if k :| k in deadlines && deadlines[k].expiry <= now {
        ExpireIsRemove(View(), k);
        RemoveAgrees(View(), deadlines[k].id);
        key := k;
        var id := deadlines[k].id;
        deadlines := deadlines - {k};
        if id in requestData {
          requestData := requestData - {id};
          oneshots.Send(id, v);
        }
        r := Some(id);
      }
    }
  }

  /** The oneshots after each of the given calls was sent `v`. */
  function DeliverTo(txs: Txs, closed: set<Id>, ids: set<Id>, v: Outcome): Txs {
    map i | i in txs :: if i in ids && txs[i].Held? then (if i in closed then Dropped else Sent(v)) else txs[i]
  }

  lemma DeliverOneMore(txs: Txs, closed: set<Id>, ids: set<Id>, i: Id, v: Outcome)
    ensures DeliverTo(txs, closed, ids + {i}, v) == Deliver(DeliverTo(txs, closed, ids, v), closed, i, v)
  {
  }
}
