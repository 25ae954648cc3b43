/** What the runs of the whole client say about the dispatcher object. */
module DispatchTheorems {
  import opened Types
  import opened Flights
  import opened DispatchProtocol
  import opened ClientProtocol
  import opened ClientTheorems
  import opened Dispatch

  /** A dispatcher that takes part in a run may always be polled. */
  lemma ReachableIsValid(rd: RequestDispatch, c: Client)
    requires Reachable(c) && c.d == rd.View(Idle) && rd.transport.Valid()
    ensures rd.Valid()
  {
    ReachableInv(c);
    QueueIsUnsent(c.d);
  }

  /** A poll leads from one point of a run to another: everything proved of runs holds after it. */
  lemma PolledIsReachable(rd: RequestDispatch, before: Client, trace: seq<Event>, r: Poll<Result<(), ChannelError>>)
    requires Reachable(before) && Exec(before.d, trace) == Some(rd.Polled(r))
    ensures Reachable(before.(d := rd.Polled(r)))
  {
    PollIsRun(before, trace);
  }

  /** A dispatcher that waits has let no deadline pass: everything in flight is still on time. */
  lemma QuiescentIsOnTime(rd: RequestDispatch, c: Client, i: Id)
    requires Reachable(c) && c.d == rd.View(Idle) && rd.Quiescent() && i in rd.inFlightRequests.requestData
    ensures i in c.calls && rd.now < c.calls[i].req.deadline
  {
    DueIffPastDeadline(c, i);
  }

  /**
   Unless a future was forgotten, nothing is in flight any more when both queues are over: the loop
   never has to wait for responses after closing the write half.
   */
  lemma ShutdownStrandsNothing(rd: RequestDispatch, c: Client)
    requires Reachable(c) && c.d == rd.View(Idle) && rd.WriteOver()
    requires forall i :: i in c.calls ==> !c.calls[i].phase.Leaked?
    ensures rd.inFlightRequests.requestData == map[] && rd.Over()
  {
    DrainedMeansEmpty(c);
  }

  /** A caller that still waits after the final poll has been sent the error the poll returned. */
  lemma FinalPollAnswersEveryone(rd: RequestDispatch, c: Client, ms: seq<Move>, e: ChannelError, i: Id)
    requires Reachable(c) && c.d.terminal == Some(e) && Run(c, ms).Some?
    requires Run(c, ms).value.d == rd.Polled(Ready(Err(e)))
    requires In(Run(c, ms).value, i, Phase.Waiting) && !(i in c.d.sites && c.d.sites[i].Done?)
    ensures i in rd.oneshots.txs && rd.oneshots.txs[i] == Sent(Err(Channel(e)))
  {
    TerminalErrorDrains(c, ms, e, e, i);
  }
}
