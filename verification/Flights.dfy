/**
 The value behind both `InFlightRequests` structures: a map from request id to request data, each
 holding the key of a timer in a deadline queue. Timer keys are chosen by the queue and may be
 used again once removed.
 */
module Flights {
  import opened Types

  type Key = nat

  datatype Timer = Timer(id: Id, expiry: Time)

  datatype Slot<X> = Slot(data: X, key: Key)

  datatype Flights<X> = Flights(slots: map<Id, Slot<X>>, timers: map<Key, Timer>) {
    /** Ids and timers are in bijection through the stored key. */
    ghost predicate Agree() {
      && (forall i :: i in slots ==> slots[i].key in timers && timers[slots[i].key].id == i)
      && (forall k :: k in timers ==> timers[k].id in slots && slots[timers[k].id].key == k)
    }

    function Insert(id: Id, data: X, key: Key, expiry: Time): Flights<X> {
      Flights(slots[id := Slot(data, key)], timers[key := Timer(id, expiry)])
    }

    function Remove(id: Id): Flights<X> {
      if id in slots then Flights(slots - {id}, timers - {slots[id].key}) else this
    }

    /** A popped timer takes the entry with its id along. */
    function Expire(key: Key): Flights<X>
      requires key in timers
    {
      Flights(slots - {timers[key].id}, timers - {key})
    }
  }

  function NoFlights<X>(): Flights<X> {
    Flights(map[], map[])
  }

  lemma InsertAgrees<X>(f: Flights<X>, id: Id, data: X, key: Key, expiry: Time)
    requires f.Agree() && id !in f.slots && key !in f.timers
    ensures f.Insert(id, data, key, expiry).Agree()
  {
    forall i | i in f.slots ensures f.slots[i].key != key {
    }
  }

  lemma RemoveAgrees<X>(f: Flights<X>, id: Id)
    requires f.Agree()
    ensures f.Remove(id).Agree()
    ensures f.Remove(id).slots.Keys == f.slots.Keys - {id}
  {
    if id in f.slots {
      forall i | i in f.slots && i != id ensures f.slots[i].key != f.slots[id].key {
        assert f.timers[f.slots[i].key].id == i;
      }
    }
  }

  /** An expiry always finds its entry, and removes exactly that entry. */
  lemma ExpireIsRemove<X>(f: Flights<X>, key: Key)
    requires f.Agree() && key in f.timers
    ensures f.timers[key].id in f.slots
    ensures f.Expire(key) == f.Remove(f.timers[key].id)
  {
  }

  /** An empty deadline queue means an empty map, and the other way round. */
  lemma EmptyTogether<X>(f: Flights<X>)
    requires f.Agree()
    ensures f.timers == map[] <==> f.slots == map[]
  {
    if f.slots != map[] {
      var i :| i in f.slots;
      assert f.slots[i].key in f.timers;
    }
    if f.timers != map[] {
      var k :| k in f.timers;
      assert f.timers[k].id in f.slots;
    }
  }

  /** As many timers as requests. */
  lemma {:induction false} SameSize<X>(f: Flights<X>)
    requires f.Agree()
    ensures |f.timers| == |f.slots|
    decreases |f.slots|
  {
    if f.slots == map[] {
      EmptyTogether(f);
    } else {
      var i :| i in f.slots;
      var g := f.Remove(i);
      RemoveAgrees(f, i);
      var k := f.slots[i].key;
      assert f.slots.Keys == g.slots.Keys + {i};
      assert f.timers.Keys == g.timers.Keys + {k};
      assert |f.slots| == |f.slots.Keys| && |g.slots| == |g.slots.Keys|;
      assert |f.timers| == |f.timers.Keys| && |g.timers| == |g.timers.Keys|;
      SameSize(g);
    }
  }

  lemma RemoveShrinks<K, V>(m: map<K, V>, k: K)
    requires k in m
    ensures |m - {k}| == |m| - 1
  {
    assert m.Keys == (m - {k}).Keys + {k};
    assert |m| == |m.Keys| && |m - {k}| == |(m - {k}).Keys|;
  }

  /** Some key is not in use. */
  lemma {:induction false} FreeKey(timers: map<Key, Timer>) returns (k: Key)
    ensures forall j :: j in timers ==> j < k
    decreases |timers|
  {
    if timers == map[] {
      k := 0;
    } else {
      var j :| j in timers;
      RemoveShrinks(timers, j);
      k := FreeKey(timers - {j});
      assert forall i :: i in timers ==> i == j || i in timers - {j};
      k := if k <= j then j + 1 else k;
    }
  }

  /** No timer is due. */
  ghost predicate NoneExpired<X>(f: Flights<X>, now: Time) {
    forall k :: k in f.timers ==> now < f.timers[k].expiry
  }
}
