/**
 `MaxChannelsPerKey`: a stream of channels that limits how many of them share a key. Live channels
 with one key share a tracker; the stream keeps a weak reference to it and hears, through a queue,
 when the last of them is gone.
 */
module ChannelLimits {
  import opened Types

  // Keys are only compared.
  type K(==, !new)

  type TrackerId = nat

  /** A tracker counts its channels; it sends one notice after the last of them is dropped. */
  datatype Tracker = Tracker(key: K, strong: nat, notified: bool)

  datatype Limits = Limits(
    perKey: nat,                          // channels_per_key
    keyCounts: map<K, TrackerId>,         // the weak references
    trackers: seq<Tracker>,            // every tracker ever made
    droppedKeys: seq<K>                  // notices not yet heard
  )

  datatype Event =
    | Admit(key: K)              // a channel arrives and passes
    | Refuse(key: K)             // a channel arrives and is dropped
    | Release(t: TrackerId)      // a channel is dropped
    | Notice(t: TrackerId)       // a tracker without channels sends its notice
    | Sweep                      // a notice is heard

  function Init(perKey: nat): Limits {
    Limits(perKey, map[], [], [])
  }

  predicate Exists(s: Limits, k: K) {
    k in s.keyCounts && s.keyCounts[k] < |s.trackers|
  }

  /** `strong_count` of the key's weak reference. */
  function EntryCount(s: Limits, k: K): nat {
    if Exists(s, k) then s.trackers[s.keyCounts[k]].strong else 0
  }

  /** The test of `increment_channels_for_key`: a key without a reference is always let in. */
  predicate Full(s: Limits, k: K) {
    k in s.keyCounts && EntryCount(s, k) >= s.perKey
  }

  function AdmitKey(s: Limits, k: K): Limits {
    if Exists(s, k) && 0 < EntryCount(s, k) then
      var t := s.keyCounts[k];
      s.(trackers := s.trackers[t := s.trackers[t].(strong := s.trackers[t].strong + 1)])
    else
      s.(trackers := s.trackers + [Tracker(k, 1, false)], keyCounts := s.keyCounts[k := |s.trackers|])
  }

  function Step(s: Limits, e: Event): Option<Limits> {
    match e
    case Admit(k) => if Full(s, k) then None else Some(AdmitKey(s, k))
    case Refuse(k) => if Full(s, k) then Some(s) else None
    case Release(t) =>
      if t < |s.trackers| && 0 < s.trackers[t].strong then
        Some(s.(trackers := s.trackers[t := s.trackers[t].(strong := s.trackers[t].strong - 1)]))
      else None
    case Notice(t) =>
      if t < |s.trackers| && s.trackers[t].strong == 0 && !s.trackers[t].notified then
        Some(s.(trackers := s.trackers[t := s.trackers[t].(notified := true)],
                droppedKeys := s.droppedKeys + [s.trackers[t].key]))
      else None
    case Sweep =>
      if s.droppedKeys != [] then
        Some(s.(keyCounts := s.keyCounts - {s.droppedKeys[0]}, droppedKeys := s.droppedKeys[1..]))
      else None
  }

  ghost function Exec(s: Limits, es: seq<Event>): Option<Limits>
    decreases |es|
  {
    if es == [] then Some(s)
    else
      var first := Step(s, es[0]);
      if first.None? then None else Exec(first.value, es[1..])
  }

  lemma {:induction false} ExecAppend(s: Limits, xs: seq<Event>, ys: seq<Event>)
    requires Exec(s, xs).Some?
    ensures Exec(s, xs + ys) == Exec(Exec(s, xs).value, ys)
    decreases |xs|
  {
    if xs == [] {
      assert xs + ys == ys;
    } else {
      assert (xs + ys)[1..] == xs[1..] + ys;
      ExecAppend(Step(s, xs[0]).value, xs[1..], ys);
    }
  }

  lemma ExecNothing(s: Limits)
    ensures Exec(s, []) == Some(s)
  {
  }

  lemma ExecSnoc(s: Limits, xs: seq<Event>, e: Event)
    requires Exec(s, xs).Some? && Step(Exec(s, xs).value, e).Some?
    ensures Exec(s, xs + [e]) == Step(Exec(s, xs).value, e)
  {
    ExecAppend(s, xs, [e]);
  }

  // ------------------------------------------------------------------ counting

  function Share(t: Tracker, k: K): nat {
    if t.key == k then t.strong else 0
  }

  /** How many channels with key `k` are open. */
  function Live(ts: seq<Tracker>, k: K): nat {
    if ts == [] then 0 else Live(ts[..|ts| - 1], k) + Share(ts[|ts| - 1], k)
  }

  /** Open channels with key `k` that the stream no longer knows about. */
  function Orphans(s: Limits, k: K): int {
    Live(s.trackers, k) - EntryCount(s, k)
  }

  lemma LiveMore(ts: seq<Tracker>, t: Tracker, k: K)
    ensures Live(ts + [t], k) == Live(ts, k) + Share(t, k)
  {
    assert (ts + [t])[..|ts|] == ts;
  }

  lemma {:induction false} LiveUpdate(ts: seq<Tracker>, i: nat, t: Tracker, k: K)
    requires i < |ts|
    ensures Live(ts[i := t], k) == Live(ts, k) - Share(ts[i], k) + Share(t, k)
    ensures Share(ts[i], k) <= Live(ts, k)
  {
    var n := |ts| - 1;
    if i < n {
      assert ts[i := t][..n] == ts[..n][i := t];
      LiveUpdate(ts[..n], i, t, k);
    } else {
      assert ts[i := t][..n] == ts[..n];
    }
  }

  // ------------------------------------------------------------------ invariant

  /** The most channels a tracker is ever shared by: even a limit of zero lets one in. */
  function Cap(perKey: nat): nat {
    if perKey == 0 then 1 else perKey
  }

  /** A dead tracker that is still referred to has its notice on the way. */
  ghost predicate Watched(s: Limits, k: K) {
    Exists(s, k) && s.trackers[s.keyCounts[k]].strong == 0 && s.trackers[s.keyCounts[k]].notified ==> k in s.droppedKeys
  }

  ghost predicate Inv(s: Limits) {
    && (forall k :: k in s.keyCounts ==> s.keyCounts[k] < |s.trackers| && s.trackers[s.keyCounts[k]].key == k)
    && (forall t :: 0 <= t < |s.trackers| ==> s.trackers[t].strong <= Cap(s.perKey))
    && (forall t :: 0 <= t < |s.trackers| && s.trackers[t].notified ==> s.trackers[t].strong == 0)
    && (forall k :: k in s.keyCounts ==> Watched(s, k))
  }

  lemma SweepWatched(s: Limits, k: K)
    requires s.droppedKeys != [] && k != s.droppedKeys[0] && Watched(s, k)
    ensures Watched(Step(s, Sweep).value, k)
  {
    assert k in s.droppedKeys ==> k in s.droppedKeys[1..];
  }

  lemma StepWatched(s: Limits, e: Event, k: K)
    requires Inv(s) && Step(s, e).Some? && k in Step(s, e).value.keyCounts
    ensures Watched(Step(s, e).value, k)
  {
    if e.Sweep? {
      SweepWatched(s, k);
    }
  }

  lemma StepInv(s: Limits, e: Event)
    requires Inv(s) && Step(s, e).Some?
    ensures Inv(Step(s, e).value) && Step(s, e).value.perKey == s.perKey
  {
    hide Watched;
    var s' := Step(s, e).value;
    forall k | k in s'.keyCounts ensures Watched(s', k) {
      StepWatched(s, e, k);
    }
  }

  lemma {:induction false} ExecInv(s: Limits, es: seq<Event>)
    requires Inv(s) && Exec(s, es).Some?
    ensures Inv(Exec(s, es).value) && Exec(s, es).value.perKey == s.perKey
    decreases |es|
  {
    if es == [] {
    } else {
      StepInv(s, es[0]);
      ExecInv(Step(s, es[0]).value, es[1..]);
    }
  }

  /** The notice about to be heard is about a key whose current tracker still has channels. */
  ghost predicate Stale(s: Limits, e: Event) {
    e.Sweep? && s.droppedKeys != [] && 0 < EntryCount(s, s.droppedKeys[0])
  }

  lemma EntryIsLive(s: Limits, k: K)
    requires Inv(s)
    ensures 0 <= Orphans(s, k) && Live(s.trackers, k) <= Orphans(s, k) + Cap(s.perKey)
  {
    if Exists(s, k) {
      LiveUpdate(s.trackers, s.keyCounts[k], s.trackers[s.keyCounts[k]], k);
    }
  }

  lemma AdmitOrphans(s: Limits, j: K, k: K)
    requires Inv(s)
    ensures Orphans(AdmitKey(s, j), k) == Orphans(s, k)
    ensures EntryCount(AdmitKey(s, j), j) == EntryCount(s, j) + 1
  {
    if Exists(s, j) && 0 < EntryCount(s, j) {
      LiveUpdate(s.trackers, s.keyCounts[j], AdmitKey(s, j).trackers[s.keyCounts[j]], k);
    } else {
      LiveMore(s.trackers, Tracker(j, 1, false), k);
    }
  }

  lemma TouchOrphans(s: Limits, e: Event, k: K)
    requires Inv(s) && Step(s, e).Some? && (e.Release? || e.Notice?)
    ensures Orphans(Step(s, e).value, k) <= Orphans(s, k)
  {
    LiveUpdate(s.trackers, e.t, Step(s, e).value.trackers[e.t], k);
  }

  /** Orphans come from stale notices only; otherwise their number never grows. */
  lemma StepOrphans(s: Limits, e: Event, k: K)
    requires Inv(s) && Step(s, e).Some?
    ensures e.Sweep? ==>
              Orphans(Step(s, e).value, k) == Orphans(s, k) + if k == s.droppedKeys[0] then EntryCount(s, k) else 0
    ensures !e.Sweep? ==> Orphans(Step(s, e).value, k) <= Orphans(s, k)
  {
    match e {
      case Admit(j) => AdmitOrphans(s, j, k);
      case Release(_) => TouchOrphans(s, e, k);
      case Notice(_) => TouchOrphans(s, e, k);
      case _ =>
    }
  }

  // ------------------------------------------------------------------ theorems

  ghost predicate Reachable(s: Limits) {
    exists n, es :: Exec(Init(n), es) == Some(s)
  }

  lemma ReachableInv(s: Limits)
    requires Reachable(s)
    ensures Inv(s)
  {
    var n, es :| Exec(Init(n), es) == Some(s);
    ExecInv(Init(n), es);
  }

  /** No tracker is ever shared by more channels than the limit, whatever notices are heard. */
  lemma TrackersWithinLimit(s: Limits, t: TrackerId)
    requires Reachable(s) && t < |s.trackers|
    ensures s.trackers[t].strong <= Cap(s.perKey)
  {
    ReachableInv(s);
  }

  /** In the run no notice about `k` is heard while the key's current tracker has channels. */
  ghost predicate NoneStale(s: Limits, es: seq<Event>, k: K)
    decreases |es|
  {
    || es == []
    || (&& !(Stale(s, es[0]) && s.droppedKeys[0] == k)
        && Step(s, es[0]).Some? && NoneStale(Step(s, es[0]).value, es[1..], k))
  }

  lemma {:induction false} NoneStaleOrphans(s: Limits, es: seq<Event>, k: K)
    requires Inv(s) && Exec(s, es).Some? && NoneStale(s, es, k)
    ensures Orphans(Exec(s, es).value, k) <= Orphans(s, k)
    decreases |es|
  {
    if es == [] {
    } else {
      StepInv(s, es[0]);
      StepOrphans(s, es[0], k);
      NoneStaleOrphans(Step(s, es[0]).value, es[1..], k);
    }
  }

  /** How many channels with key `k` the run has let in. */
  function LetIn(es: seq<Event>, k: K): nat {
    if es == [] then 0 else (if es[0] == Admit(k) then 1 else 0) + LetIn(es[1..], k)
  }

  /** How many channels with key `k` were dropped in the run; a channel's key is that of its tracker. */
  function LetGo(es: seq<Event>, ts: seq<Tracker>, k: K): nat {
    if es == [] then 0
    else
      (if es[0].Release? && es[0].t < |ts| && ts[es[0].t].key == k then 1 else 0) + LetGo(es[1..], ts, k)
  }

  lemma StepKeys(s: Limits, e: Event, t: TrackerId)
    requires Step(s, e).Some? && t < |s.trackers|
    ensures t < |Step(s, e).value.trackers| && Step(s, e).value.trackers[t].key == s.trackers[t].key
  {
  }

  lemma {:induction false} ExecKeys(s: Limits, es: seq<Event>, t: TrackerId)
    requires Exec(s, es).Some? && t < |s.trackers|
    ensures t < |Exec(s, es).value.trackers| && Exec(s, es).value.trackers[t].key == s.trackers[t].key
    decreases |es|
  {
    if es == [] {
    } else {
      StepKeys(s, es[0], t);
      ExecKeys(Step(s, es[0]).value, es[1..], t);
    }
  }

  lemma StepLive(s: Limits, e: Event, k: K)
    requires Inv(s) && Step(s, e).Some?
    ensures Live(Step(s, e).value.trackers, k)
            == Live(s.trackers, k) + (if e == Admit(k) then 1 else 0)
               - (if e.Release? && s.trackers[e.t].key == k then 1 else 0)
  {
    match e {
      case Admit(j) =>
        if Exists(s, j) && 0 < EntryCount(s, j) {
          LiveUpdate(s.trackers, s.keyCounts[j], AdmitKey(s, j).trackers[s.keyCounts[j]], k);
        } else {
          LiveMore(s.trackers, Tracker(j, 1, false), k);
        }
      case Release(t) => LiveUpdate(s.trackers, t, Step(s, e).value.trackers[t], k);
      case Notice(t) => LiveUpdate(s.trackers, t, Step(s, e).value.trackers[t], k);
      case _ =>
    }
  }

  /** The trackers' counts are those of the channels that came and went. */
  lemma {:induction false} LiveIsOpen(s: Limits, es: seq<Event>, k: K)
    requires Inv(s) && Exec(s, es).Some?
    ensures var ts := Exec(s, es).value.trackers; Live(ts, k) == Live(s.trackers, k) + LetIn(es, k) - LetGo(es, ts, k)
    decreases |es|
  {
    hide Step, Live;
    if es == [] {
    } else {
      var n := Step(s, es[0]).value;
      StepInv(s, es[0]);
      StepLive(s, es[0], k);
      LiveIsOpen(n, es[1..], k);
      if es[0].Release? {
        ReleasesTracker(s, es[0].t);
        ExecKeys(s, es, es[0].t);
      }
    }
  }

  lemma ReleasesTracker(s: Limits, t: TrackerId)
    requires Step(s, Release(t)).Some?
    ensures t < |s.trackers|
  {
  }

  /** How many channels tracker `t` counts; none before it is made. */
  function StrongOf(s: Limits, t: TrackerId): nat {
    if t < |s.trackers| then s.trackers[t].strong else 0
  }

  /** The step lets in a channel that shares tracker `t` from then on. */
  predicate Joins(s: Limits, e: Event, t: TrackerId) {
    e.Admit? && Step(s, e).Some? && e.key in Step(s, e).value.keyCounts && Step(s, e).value.keyCounts[e.key] == t
  }

  /** How many channels of tracker `t` came, less those that went. */
  ghost function Sharing(s: Limits, es: seq<Event>, t: TrackerId): int
    requires Exec(s, es).Some?
    decreases |es|
  {
    if es == [] then 0
    else
      (if Joins(s, es[0], t) then 1 else 0) - (if es[0] == Release(t) then 1 else 0)
      + Sharing(Step(s, es[0]).value, es[1..], t)
  }

  lemma StepStrong(s: Limits, e: Event, t: TrackerId)
    requires Inv(s) && Step(s, e).Some?
    ensures StrongOf(Step(s, e).value, t)
            == StrongOf(s, t) + (if Joins(s, e, t) then 1 else 0) - (if e == Release(t) then 1 else 0)
  {
  }

  /** Each tracker counts exactly the channels that share it. */
  lemma {:induction false} StrongIsSharing(s: Limits, es: seq<Event>, t: TrackerId)
    requires Inv(s) && Exec(s, es).Some?
    ensures StrongOf(Exec(s, es).value, t) == StrongOf(s, t) + Sharing(s, es, t)
    decreases |es|
  {
    hide Step, Joins, StrongOf;
    if es == [] {
    } else {
      StepInv(s, es[0]);
      StepStrong(s, es[0], t);
      StrongIsSharing(Step(s, es[0]).value, es[1..], t);
    }
  }

  /** In every run, the channels counted for a key are those let in and not yet dropped. */
  lemma OpenIsCounted(n: nat, es: seq<Event>, k: K)
    requires Exec(Init(n), es).Some?
    ensures var ts := Exec(Init(n), es).value.trackers; Live(ts, k) == LetIn(es, k) - LetGo(es, ts, k)
  {
    LiveIsOpen(Init(n), es, k);
  }

  /**
   Over any run that hears no stale notice about a key, the channels with that key that were let in and
   not yet dropped are never more than the limit.
   */
  lemma LimitHolds(n: nat, es: seq<Event>, k: K)
    requires Exec(Init(n), es).Some? && NoneStale(Init(n), es, k)
    ensures LetIn(es, k) - LetGo(es, Exec(Init(n), es).value.trackers, k) <= Cap(n)
    ensures Live(Exec(Init(n), es).value.trackers, k) <= Cap(n)
  {
    ExecInv(Init(n), es);
    NoneStaleOrphans(Init(n), es, k);
    EntryIsLive(Exec(Init(n), es).value, k);
    OpenIsCounted(n, es, k);
  }

  /** What `m` more channels with key `k` lead to. */
  function Arrive(s: Limits, k: K, m: nat): Limits
    decreases m
  {
    if m == 0 then s else Arrive(if Full(s, k) then s else AdmitKey(s, k), k, m - 1)
  }

  lemma {:induction false} ArriveLive(s: Limits, k: K, m: nat)
    requires Inv(s) && 0 < s.perKey
    ensures var open := EntryCount(s, k) + m;
            Live(Arrive(s, k, m).trackers, k) == Orphans(s, k) + if open < s.perKey then open else s.perKey
    decreases m
  {
    if m == 0 {
    } else {
      if Full(s, k) {
        assert EntryCount(s, k) == s.perKey;
        ArriveLive(s, k, m - 1);
      } else {
        StepInv(s, Admit(k));
        AdmitOrphans(s, k, k);
        ArriveLive(AdmitKey(s, k), k, m - 1);
      }
    }
  }

  /** However many channels arrive, the key stays within the limit. */
  ghost predicate Safe(s: Limits, k: K) {
    forall m: nat :: Live(Arrive(s, k, m).trackers, k) <= s.perKey
  }

  /** The limit can be relied on exactly while no open channel was forgotten. */
  lemma SafeIffNoOrphans(s: Limits, k: K)
    requires Reachable(s) && 0 < s.perKey
    ensures Safe(s, k) <==> Orphans(s, k) == 0
  {
    ReachableInv(s);
    EntryIsLive(s, k);
    if Orphans(s, k) == 0 {
      forall m: nat ensures Live(Arrive(s, k, m).trackers, k) <= s.perKey {
        ArriveLive(s, k, m);
      }
    } else {
      ArriveLive(s, k, s.perKey);
      assert s.perKey < Live(Arrive(s, k, s.perKey).trackers, k);
    }
  }

  /** A step makes a safe key unsafe exactly if it hears a stale notice about that key. */
  lemma UnsafeIffStale(s: Limits, e: Event, k: K)
    requires Reachable(s) && 0 < s.perKey && Safe(s, k) && Step(s, e).Some?
    ensures Safe(Step(s, e).value, k) <==> !(Stale(s, e) && s.droppedKeys[0] == k)
  {
    var n, es :| Exec(Init(n), es) == Some(s);
    ExecSnoc(Init(n), es, e);
    var s' := Step(s, e).value;
    assert Reachable(s');
    ReachableInv(s);
    StepInv(s, e);
    SafeIffNoOrphans(s, k);
    SafeIffNoOrphans(s', k);
    StepOrphans(s, e, k);
    EntryIsLive(s', k);
  }

  /** A channel is turned away only if the limit is reached, by channels let in and not yet dropped. */
  lemma RefusedOnlyAtLimit(n: nat, es: seq<Event>, k: K)
    requires Exec(Init(n), es).Some? && Step(Exec(Init(n), es).value, Refuse(k)).Some?
    ensures n <= LetIn(es, k) - LetGo(es, Exec(Init(n), es).value.trackers, k)
  {
    ExecInv(Init(n), es);
    EntryIsLive(Exec(Init(n), es).value, k);
    OpenIsCounted(n, es, k);
  }

  /** A limit of zero is a limit of one. */
  lemma ZeroLetsOneIn(k: K)
    ensures Exec(Init(0), [Admit(k)]).Some? && NoneStale(Init(0), [Admit(k)], k)
    ensures Live(Exec(Init(0), [Admit(k)]).value.trackers, k) == 1
  {
    var s := Step(Init(0), Admit(k)).value;
    LiveMore([], Tracker(k, 1, false), k);
    assert s.trackers == [] + [Tracker(k, 1, false)];
    assert [Admit(k)][1..] == [];
  }

  /** Once every notice was sent and heard, no key without open channels is kept. */
  lemma NoDeadKeys(s: Limits, k: K)
    requires Reachable(s) && s.droppedKeys == [] && k in s.keyCounts
    requires forall t :: 0 <= t < |s.trackers| && s.trackers[t].strong == 0 ==> s.trackers[t].notified
    ensures 0 < EntryCount(s, k)
  {
    ReachableInv(s);
    assert Watched(s, k);
  }

  lemma NewLimits(n: nat)
    ensures Reachable(Init(n))
  {
    assert Exec(Init(n), []) == Some(Init(n));
  }

  lemma Continue(s: Limits, e: Event) returns (s': Limits)
    requires Reachable(s) && Step(s, e).Some?
    ensures Reachable(s') && Step(s, e) == Some(s')
  {
    var n, es :| Exec(Init(n), es) == Some(s);
    ExecSnoc(Init(n), es, e);
    s' := Step(s, e).value;
  }

  /** The only channel of a key is gone, and the notice about it is not yet heard. */
  lemma NoticeSent(k: K) returns (s: Limits)
    ensures Reachable(s) && s == Limits(1, map[k := 0], [Tracker(k, 0, true)], [k])
  {
    hide Reachable;
    NewLimits(1);
    s := Continue(Init(1), Admit(k));
    s := Continue(s, Release(0));
    s := Continue(s, Notice(0));
    assert s.trackers == [Tracker(k, 0, true)] && s.droppedKeys == [k] && s.keyCounts == map[k := 0];
  }

  /**
   The channel of a key is dropped and a new one arrives before the notice about the first is heard.
   The notice then removes the reference to the new channel's tracker, and a second one is let in.
   */
  lemma LateNoticeBreaksLimit(k: K) returns (s: Limits)
    ensures Reachable(s) && s.perKey == 1 && Live(s.trackers, k) == 2
  {
    hide Reachable;
    var dead, open := Tracker(k, 0, true), Tracker(k, 1, false);
    s := NoticeSent(k);
    s := Continue(s, Admit(k));
    s := Continue(s, Sweep);
    s := Continue(s, Admit(k));
    assert s.trackers == [] + [dead] + [open] + [open];
    LiveMore([], dead, k);
    LiveMore([] + [dead], open, k);
    LiveMore([] + [dead] + [open], open, k);
  }

  // ------------------------------------------------------------------ the stream

  /** The reference-counted trackers, shared with the channels. */
  class Trackers {
    var all: seq<Tracker>

    constructor ()
      ensures all == []
    {
      all := [];
    }

    method Make(key: K) returns (t: TrackerId)
      modifies this
      ensures t == |old(all)| && all == old(all) + [Tracker(key, 1, false)]
    {
      t := |all|;
      all := all + [Tracker(key, 1, false)];
    }

    /** Another reference, if there still is one. */
    method Upgrade(t: TrackerId) returns (ok: bool)
      requires t < |all|
      modifies this
      ensures ok == (0 < old(all)[t].strong)
      ensures all == if ok then old(all)[t := old(all)[t].(strong := old(all)[t].strong + 1)] else old(all)
    {
      ok := 0 < all[t].strong;
      if ok {
        all := all[t := all[t].(strong := all[t].strong + 1)];
      }
    }
  }

  /** A channel that passed the filter. */
  datatype TrackedChannel = TrackedChannel(key: K, tracker: TrackerId)

  class MaxChannelsPerKey {
    var listener: seq<K>                    // the keys of the channels that wait to be accepted
    var listenerEnded: bool
    const channelsPerKey: nat
    var droppedKeys: seq<K>
    var keyCounts: map<K, TrackerId>
    const trackers: Trackers

    ghost function View(): Limits
      reads this, trackers
    {
      Limits(channelsPerKey, keyCounts, trackers.all, droppedKeys)
    }

    ghost predicate Valid()
      reads this, trackers
    {
      forall k :: k in keyCounts ==> keyCounts[k] < |trackers.all|
    }

    constructor (perKey: nat)
      ensures Valid() && fresh(trackers) && View() == Init(perKey) && listener == [] && !listenerEnded
    {
      listener, listenerEnded, channelsPerKey := [], false, perKey;
      droppedKeys, keyCounts := [], map[];
      trackers := new Trackers();
    }

    method IncrementChannelsForKey(key: K) returns (r: Result<TrackerId, K>)
      requires Valid()
      modifies this`keyCounts, trackers
      ensures Valid()
      ensures match r
              case Ok(t) => Step(old(View()), Admit(key)) == Some(View()) && key in keyCounts && keyCounts[key] == t
              case Err(k) => k == key && Step(old(View()), Refuse(key)) == Some(View())
    {
      if key !in keyCounts {
        var t := trackers.Make(key);
        keyCounts := keyCounts[key := t];
        return Ok(t);
      }
      var t := keyCounts[key];
      if trackers.all[t].strong >= channelsPerKey {
        return Err(key);
      }
      var ok := trackers.Upgrade(t);
      if !ok {
        t := trackers.Make(key);
        keyCounts := keyCounts[key := t];
      }
      r := Ok(t);
    }

    method PollListener() returns (r: Poll<Option<Result<TrackedChannel, K>>>)
      requires Valid()
      modifies this`listener, this`keyCounts, trackers
      ensures Valid()
      ensures match r
              case Ready(Some(result)) =>
                && old(listener) != [] && listener == old(listener)[1..]
                && (match result
                    case Ok(c) =>
                      && c.key == old(listener)[0] && Step(old(View()), Admit(c.key)) == Some(View())
                      && Exists(View(), c.key) && keyCounts[c.key] == c.tracker
                    case Err(k) => k == old(listener)[0] && Step(old(View()), Refuse(k)) == Some(View()))
              case Ready(None) => listener == old(listener) == [] && listenerEnded && View() == old(View())
              case Pending => listener == old(listener) == [] && !listenerEnded && View() == old(View())
    {
      if listener == [] {
        return if listenerEnded then Ready(None) else Pending;
      }
      var key := listener[0];
      listener := listener[1..];
      var tracker := IncrementChannelsForKey(key);
      match tracker {
        case Ok(t) => r := Ready(Some(Ok(TrackedChannel(key, t))));
        case Err(k) => r := Ready(Some(Err(k)));
      }
    }

    method PollClosedChannels() returns (r: Poll<()>)
      requires Valid()
      modifies this`droppedKeys, this`keyCounts
      ensures Valid() && |droppedKeys| <= |old(droppedKeys)|
      ensures r.Ready? ==> Step(old(View()), Sweep) == Some(View()) && |droppedKeys| == |old(droppedKeys)| - 1
      ensures r.Pending? ==> droppedKeys == old(droppedKeys) == [] && View() == old(View())
    {
      if droppedKeys == [] {
        return Pending;
      }
      keyCounts := keyCounts - {droppedKeys[0]};
      droppedKeys := droppedKeys[1..];
      r := Ready(());
    }

    /**
     Yields the next channel that passes. The listener is polled before the notices are heard, so a
     notice about a key can be heard after a new channel with that key was let in.
     */
    method PollNext() returns (r: Poll<Option<TrackedChannel>>, ghost trace: seq<Event>)
      requires Valid()
      modifies this`listener, this`droppedKeys, this`keyCounts, trackers
      ensures Valid() && Exec(old(View()), trace) == Some(View())
      // what left the listener is what the trace decided on, in order
      ensures old(listener) == Arrivals(trace) + listener
      ensures match r
              case Ready(Some(c)) =>
                // a notice is heard for every channel decided on, as long as there are any
                Yields(old(View()), trace, c) && |droppedKeys| == Less(|old(droppedKeys)|, |Arrivals(trace)|)
              case Ready(None) => NoneAdmitted(trace) && listener == [] && listenerEnded && droppedKeys == []
              case Pending => NoneAdmitted(trace) && listener == [] && !listenerEnded && droppedKeys == []
    {
      hide Step, Exec, Arrivals, Yields;
      ghost var s0, q := View(), listener;
      ghost var dry := false;
      trace := [];
      ExecNothing(s0);
      NothingArrived();
      while true
        invariant Valid() && Exec(s0, trace) == Some(View()) && NoneAdmitted(trace)
        invariant if dry then listener == [] else |droppedKeys| == Less(|old(droppedKeys)|, |Arrivals(trace)|)
        invariant q == Arrivals(trace) + listener
        decreases |listener| + |droppedKeys|
      {
        ghost var before, waiting := trace, listener;
        var arrived := PollListener();
        dry := dry || !(arrived.Ready? && arrived.value.Some?);
        if arrived.Ready? && arrived.value.Some? {
          var result := arrived.value.value;
          ghost var e := match result case Ok(c) => Admit(c.key) case Err(k) => Refuse(k);
          ExecSnoc(s0, trace, e);
          OneMoreArrival(trace, e);
          assert waiting == [e.key] + listener;
          assert q == Arrivals(trace) + [e.key] + listener;
          trace := trace + [e];
          if result.Ok? {
            YieldsNow(s0, before, result.value);
          }
        }
        var closed := PollClosedChannels();
        if closed.Ready? {
          ExecSnoc(s0, trace, Sweep);
          OneMoreArrival(trace, Sweep);
          trace := trace + [Sweep];
        }
        match arrived {
          case Ready(Some(Ok(channel))) =>
            if closed.Ready? {
              YieldsThenSweep(s0, before, channel);
            }
            return Ready(Some(channel)), trace;
          case Ready(Some(Err(_))) =>
          case Ready(None) =>
            if closed.Pending? {
              return Ready(None), trace;
            }
          case Pending =>
            if closed.Pending? {
              return Pending, trace;
            }
        }
      }
    }
  }

  // ------------------------------------------------------------------ what a poll decided

  /** The channels a run decided on, by key. */
  ghost function Arrivals(es: seq<Event>): seq<K> {
    if es == [] then []
    else
      var last := es[|es| - 1];
      Arrivals(es[..|es| - 1]) + if last.Admit? || last.Refuse? then [last.key] else []
  }

  lemma NothingArrived()
    ensures Arrivals([]) == []
  {
  }

  lemma OneMoreArrival(es: seq<Event>, e: Event)
    ensures Arrivals(es + [e]) == if e.Admit? || e.Refuse? then Arrivals(es) + [e.key] else Arrivals(es)
  {
    assert (es + [e])[..|es|] == es;
  }

  function Less(m: nat, n: nat): nat {
    if n <= m then m - n else 0
  }

  ghost predicate NoneAdmitted(es: seq<Event>) {
    forall p :: 0 <= p < |es| ==> !es[p].Admit?
  }

  /**
   The run refuses until it admits `c`, on the tracker that its key refers to from then on, and at most
   hears one more notice.
   */
  ghost predicate Yields(s: Limits, es: seq<Event>, c: TrackedChannel) {
    exists n: nat :: n < |es| && YieldsAt(s, es, n, c)
  }

  ghost predicate YieldsAt(s: Limits, es: seq<Event>, n: nat, c: TrackedChannel)
    requires n < |es|
  {
    && NoneAdmitted(es[..n]) && es[n] == Admit(c.key) && (es[n + 1..] == [] || es[n + 1..] == [Sweep])
    && var mid := Exec(s, es[..n + 1]);
       mid.Some? && Exists(mid.value, c.key) && mid.value.keyCounts[c.key] == c.tracker
  }

  lemma YieldsNow(s: Limits, before: seq<Event>, c: TrackedChannel)
    requires NoneAdmitted(before) && Exec(s, before + [Admit(c.key)]).Some?
    requires var mid := Exec(s, before + [Admit(c.key)]).value;
             Exists(mid, c.key) && mid.keyCounts[c.key] == c.tracker
    ensures Yields(s, before + [Admit(c.key)], c)
  {
    var es := before + [Admit(c.key)];
    assert es[..|before|] == before && es[..|before| + 1] == es && es[|before| + 1..] == [];
    assert YieldsAt(s, es, |before|, c);
  }

  lemma YieldsThenSweep(s: Limits, before: seq<Event>, c: TrackedChannel)
    requires NoneAdmitted(before) && Exec(s, before + [Admit(c.key)]).Some?
    requires var mid := Exec(s, before + [Admit(c.key)]).value;
             Exists(mid, c.key) && mid.keyCounts[c.key] == c.tracker
    ensures Yields(s, before + [Admit(c.key)] + [Sweep], c)
  {
    var es := before + [Admit(c.key)] + [Sweep];
    assert es[..|before|] == before && es[..|before| + 1] == before + [Admit(c.key)] && es[|before| + 1..] == [Sweep];
    assert YieldsAt(s, es, |before|, c);
  }
}
