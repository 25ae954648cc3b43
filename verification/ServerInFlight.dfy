/** The server's `InFlightRequests`: requests that were accepted and are not yet answered. */
module ServerInFlight {
  import opened Types
  import opened Flights
  import opened ServerProtocol

  /** The abort flags shared with the handlers; history: why each was set. */
  class AbortFlags {
    var flags: map<Handle, Why>

    constructor ()
      ensures flags == map[]
    {
      flags := map[];
    }

    method Abort(h: Handle, why: Why)
      modifies this
      ensures flags == old(flags)[h := why]
    {
      flags := flags[h := why];
    }
  }

  class InFlightRequests {
    var requestData: map<Id, Slot<Handle>>
    var deadlines: map<Key, Timer>

    ghost function View(): Flights<Handle>
      reads this
    {
      Flights(requestData, deadlines)
    }

    ghost predicate Valid()
      reads this
    {
      View().Agree()
    }

    constructor ()
      ensures Valid() && View() == NoFlights()
    {
      requestData, deadlines := map[], map[];
    }

    /** Starts a request, unless one with the same id is being tracked. */
    method StartRequest(id: Id, deadline: Time, handle: Handle, now: Time) returns (ok: bool, ghost key: Key)
      requires Valid()
      modifies this
      ensures Valid() && ok == (id !in old(requestData))
      ensures ok ==> key !in old(deadlines) && View() == old(View()).Insert(id, handle, key, ExpiryOf(now, deadline))
      ensures !ok ==> View() == old(View())
    {
      ok, key := id !in requestData, 0;
      if ok {
        ghost var free := FreeKey(deadlines);
        assert free !in deadlines;
        var k :| k !in deadlines;
        deadlines := deadlines[k := Timer(id, ExpiryOf(now, deadline))];
        requestData := requestData[id := Slot(handle, k)];
        key := k;
        InsertAgrees(old(View()), id, handle, k, ExpiryOf(now, deadline));
      }
    }

    /** The real queue panics on a key that is not there. */
    method RemoveDeadline(key: Key)
      requires key in deadlines
      modifies this`deadlines
      ensures deadlines == old(deadlines) - {key}
    {
      deadlines := deadlines - {key};
    }

    /** Stops tracking a request and aborts its handler. */
    method CancelRequest(id: Id, why: Why, aborts: AbortFlags) returns (found: bool)
      requires Valid()
      modifies this, aborts
      ensures Valid() && found == (id in old(requestData)) && View() == old(View()).Remove(id)
      ensures aborts.flags == if found then old(aborts.flags)[old(requestData)[id].data := why] else old(aborts.flags)
    {
      found := id in requestData;
      if found {
        RemoveAgrees(View(), id);
        var slot := requestData[id];
        requestData := requestData - {id};
        aborts.Abort(slot.data, why);
        RemoveDeadline(slot.key);
      }
    }

    /** Stops tracking a request and leaves its handler alone. */
    method RemoveRequest(id: Id) returns (found: bool)
      requires Valid()
      modifies this
      ensures Valid() && found == (id in old(requestData)) && View() == old(View()).Remove(id)
    {
      found := id in requestData;
      if found {
        RemoveAgrees(View(), id);
        var slot := requestData[id];
        requestData := requestData - {id};
        RemoveDeadline(slot.key);
      }
    }

    /** Yields an expired request, its handler aborted; Ready(None) if nothing is tracked at all. */
    method PollExpired(now: Time, aborts: AbortFlags) returns (r: Poll<Option<Id>>, ghost key: Key)
      requires Valid()
      modifies this, aborts
      ensures Valid()
      ensures match r
              case Ready(None) => requestData == map[]
              case Pending => requestData != map[] && NoneExpired(View(), now)
              case Ready(Some(id)) =>
                && key in old(deadlines) && old(deadlines)[key].id == id && old(deadlines)[key].expiry <= now
                && id in old(requestData) && View() == old(View()).Expire(key) == old(View()).Remove(id)
                && aborts.flags == old(aborts.flags)[old(requestData)[id].data := DeadlinePassed]
      ensures r.Pending? || r.value.None? ==> View() == old(View()) && aborts.flags == old(aborts.flags)
    {
      key := 0;
      EmptyTogether(View());
      if deadlines == map[] {
        return Ready(None), 0;
      }
      if k :| k in deadlines && deadlines[k].expiry <= now {
        ExpireIsRemove(View(), k);
        RemoveAgrees(View(), deadlines[k].id);
        key := k;
        var id := deadlines[k].id;
        deadlines := deadlines - {k};
        if id in requestData {
          aborts.Abort(requestData[id].data, DeadlinePassed);
          requestData := requestData - {id};
        }
        r := Ready(Some(id));
      } else {
        r := Pending;
      }
    }

    /** What happens when the structure goes out of scope: every tracked handler is aborted. */
    method DropAll(aborts: AbortFlags)
      modifies this, aborts
      ensures View() == NoFlights()
      ensures aborts.flags == AbortAll(old(aborts.flags), TrackedHandlers(old(requestData)))
    {
      hide AbortAll, TrackedHandlers;
      ghost var done := {};
      NoneTracked();
      AbortNone(aborts.flags);
      while requestData != map[]
        invariant done + TrackedHandlers(requestData) == TrackedHandlers(old(requestData))
        invariant aborts.flags == AbortAll(old(aborts.flags), done)
        decreases |requestData|
      {
        var i :| i in requestData;
        RemoveShrinks(requestData, i);
        TrackedLess(requestData, i);
        AbortMore(old(aborts.flags), done, requestData[i].data);
        done := done + {requestData[i].data};
        aborts.Abort(requestData[i].data, ChannelDropped);
        requestData := requestData - {i};
      }
      deadlines := map[];
    }
  }

  lemma NoneTracked()
    ensures TrackedHandlers(map[]) == {}
  {
  }

  lemma TrackedLess(slots: map<Id, Slot<Handle>>, i: Id)
    requires i in slots
    ensures TrackedHandlers(slots) == TrackedHandlers(slots - {i}) + {slots[i].data}
  {
    forall h | h in TrackedHandlers(slots) ensures h in TrackedHandlers(slots - {i}) + {slots[i].data} {
      var j :| j in slots && slots[j].data == h;
      assert j == i || j in slots - {i};
    }
  }

  lemma AbortNone(aborted: map<Handle, Why>)
    ensures AbortAll(aborted, {}) == aborted
  {
  }

  lemma AbortMore(aborted: map<Handle, Why>, hs: set<Handle>, h: Handle)
    ensures AbortAll(aborted, hs + {h}) == AbortAll(aborted, hs)[h := ChannelDropped]
  {
  }
}
