/**
 A transport as the library sees it: a stream of inbound items and a buffered sink. What the
 environment does to it between two polls is frozen during a poll; each sink operation fails
 exactly if the environment has decided so for that operation.
 */
module Transports {
  import opened Types

  ghost predicate Suffix<T>(s: seq<T>, t: seq<T>) {
    |s| <= |t| && s == t[|t| - |s|..]
  }

  lemma SameSuffix<T>(s: seq<T>)
    ensures Suffix(s, s)
  {
  }

  lemma SuffixOfSuffix<T>(s: seq<T>, t: seq<T>, u: seq<T>)
    requires Suffix(s, t) && Suffix(t, u)
    ensures Suffix(s, u)
  {
  }

  datatype Item<M> = Message(m: M) | Broken(cause: Cause)

  function Messages<M>(ms: seq<M>): seq<Item<M>> {
    seq(|ms|, k requires 0 <= k < |ms| => Message(ms[k]))
  }

  function Breach<M>(broke: Option<Cause>): seq<Item<M>> {
    if broke.Some? then [Broken(broke.value)] else []
  }

  /** The error that a stream gave, if it did. */
  function Breaks<M>(p: Poll<Option<Result<M, Cause>>>): Option<Cause> {
    if p.Ready? && p.value.Some? && p.value.value.Err? then Some(p.value.value.error) else None
  }

  /** The error of the stream that an error of a channel stands for, if it is one of reading. */
  function ReadCause(e: Option<ChannelError>): Option<Cause> {
    if e.Some? && e.value.ReadError? then Some(e.value.cause) else None
  }

  function AsReady(p: Poll<Result<(), Cause>>): Poll<Result<(), ChannelError>> {
    match p
    case Ready(Ok(_)) => Ready(Ok(()))
    case Ready(Err(cause)) => Ready(Err(ReadyError(cause)))
    case Pending => Pending
  }

  datatype Transport<O, I> = Transport(
    inbound: seq<Item<I>>,              // arrived and not yet read
    ended: bool,                        // nothing will arrive after `inbound`
    read: seq<I>,                       // history: messages read
    written: seq<O>,                    // history: messages written
    flushed: nat,                       // how many of them have left the buffer
    capacity: nat,                      // size of the buffer
    canFlush: bool,                     // a flush completes now
    canClose: bool,                     // a close completes now
    faults: nat -> Option<Cause>,       // which sink operation fails, and why
    ops: nat                            // sink operations so far
  ) {
    /** A completed flush makes the sink ready; the buffer never holds more than it can. */
    ghost predicate Valid() {
      0 < capacity && flushed <= |written| <= flushed + capacity
    }

    /** No operation on the sink fails. */
    ghost predicate Faultless() {
      forall n :: faults(n).None?
    }

    predicate HasRoom() {
      |written| < flushed + capacity
    }

    function PollNext(): (Transport<O, I>, Poll<Option<Result<I, Cause>>>) {
      if inbound != [] then
        match inbound[0]
        case Message(m) => (this.(inbound := inbound[1..], read := read + [m]), Ready(Some(Ok(m))))
        case Broken(cause) => (this.(inbound := inbound[1..]), Ready(Some(Err(cause))))
      else if ended then (this, Ready(None))
      else (this, Pending)
    }

    function PollReady(): (Transport<O, I>, Poll<Result<(), Cause>>) {
      var t := this.(ops := ops + 1);
      if faults(ops).Some? then (t, Ready(Err(faults(ops).value)))
      else if HasRoom() then (t, Ready(Ok(())))
      else (t, Pending)
    }

    /** May be called only after the sink was found ready. */
    function StartSend(m: O): (Transport<O, I>, Result<(), Cause>)
      requires HasRoom()
    {
      var t := this.(ops := ops + 1);
      if faults(ops).Some? then (t, Err(faults(ops).value))
      else (t.(written := written + [m]), Ok(()))
    }

    function PollFlush(): (Transport<O, I>, Poll<Result<(), Cause>>) {
      var t := this.(ops := ops + 1);
      if faults(ops).Some? then (t, Ready(Err(faults(ops).value)))
      else if canFlush then (t.(flushed := |written|), Ready(Ok(())))
      else (t, Pending)
    }

    function PollClose(): (Transport<O, I>, Poll<Result<(), Cause>>) {
      var t := this.(ops := ops + 1);
      if faults(ops).Some? then (t, Ready(Err(faults(ops).value)))
      else if canClose then (t.(flushed := |written|), Ready(Ok(())))
      else (t, Pending)
    }

    /** What it takes to find the sink ready: if it is full, a flush, and then it is asked again. */
    function Writeable(): (Transport<O, I>, Poll<Result<(), ChannelError>>) {
      var (t, ready) := PollReady();
      if ready.Ready? then (t, AsReady(ready))
      else
        var (t', flush) := t.PollFlush();
        match flush
        case Ready(Ok(_)) => (t'.PollReady().0, AsReady(t'.PollReady().1))
        case Ready(Err(cause)) => (t', Ready(Err(FlushError(cause))))
        case Pending => (t', Pending)
    }

    /** Nothing is lost: what has left the stream are the messages read since, in order, and then perhaps an error. */
    ghost predicate Took(t: Transport<O, I>, broke: Option<Cause>) {
      read <= t.read && inbound == Messages(t.read[|read|..]) + Breach(broke) + t.inbound
    }

    /** The buffer only empties, and only if a flush or a close can complete. */
    ghost predicate Buffers(t: Transport<O, I>) {
      flushed <= t.flushed && (!canFlush && !canClose ==> t.flushed == flushed)
    }

    /** What the environment has decided for the rest of the poll is the same. */
    ghost predicate SameSide(t: Transport<O, I>) {
      && t.ended == ended && t.capacity == capacity && t.canFlush == canFlush && t.canClose == canClose
      && t.faults == faults && Buffers(t)
    }

    /** The stream, and what the environment has decided, are the same. */
    ghost predicate SameEnv(t: Transport<O, I>) {
      t.inbound == inbound && t.read == read && SameSide(t)
    }

    /** The buffer only empties, and only if a flush can complete. */
    ghost predicate Flushes(t: Transport<O, I>) {
      flushed <= t.flushed && (!canFlush ==> t.flushed == flushed)
    }

    /** Only the buffer and the operation count differ: nothing was read or written. */
    ghost predicate SameTraffic(t: Transport<O, I>) {
      SameEnv(t) && t.written == written
    }
  }

  /** `t'` is what a flush made of `t`, which was found full. */
  ghost predicate FlushedFrom<O, I>(t: Transport<O, I>, t': Transport<O, I>) {
    t.PollReady().1.Pending? && t.PollReady().0.PollFlush() == (t', Ready(Ok(()))) && t'.HasRoom()
  }

  lemma TookNothing<O, I>(t: Transport<O, I>, t': Transport<O, I>)
    requires t'.inbound == t.inbound && t'.read == t.read
    ensures t.Took(t', None)
  {
  }

  lemma TookOne<O, I>(t: Transport<O, I>)
    ensures t.Took(t.PollNext().0, Breaks(t.PollNext().1))
  {
  }

  lemma MessagesOn<M>(ms: seq<M>, ns: seq<M>)
    ensures Messages(ms + ns) == Messages(ms) + Messages(ns)
  {
  }

  lemma TookOn<O, I>(t: Transport<O, I>, t': Transport<O, I>, t'': Transport<O, I>, broke: Option<Cause>)
    requires t.Took(t', None) && t'.Took(t'', broke)
    ensures t.Took(t'', broke) && |t''.inbound| <= |t'.inbound| <= |t.inbound|
  {
    var first, second := t'.read[|t.read|..], t''.read[|t'.read|..];
    assert t''.read[|t.read|..] == first + second;
    MessagesOn(first, second);
  }

  /** Only the stream and what was read of it matter. */
  lemma TookStill<O, I>(t: Transport<O, I>, t': Transport<O, I>, t'': Transport<O, I>, broke: Option<Cause>)
    requires t.Took(t', broke) && t''.inbound == t'.inbound && t''.read == t'.read
    ensures t.Took(t'', broke)
  {
  }

  /** An error that left the stream was in it. */
  lemma TookBreach<O, I>(t: Transport<O, I>, t': Transport<O, I>, cause: Cause)
    requires t.Took(t', Some(cause))
    ensures Broken(cause) in t.inbound
  {
    assert t.inbound[|t'.read| - |t.read|] == Broken(cause);
  }
}
