# Verified model of tarpc's request machinery

tarpc multiplexes remote procedure calls over one connection. On the client many callers share one
dispatcher task; on the server a channel tracks requests, hands them to handlers and writes their
responses. Requests can be dropped, cancelled, throttled, expired or failed at any point. This
project models that machinery and proves what holds of it in every run.

There are two layers.

- **State machines.** Each atomic step of a party is one event: a call draws an id, a guard closes its
  receiver, the dispatcher checks whether a receiver is closed, a cancel is taken from its queue, a
  tracker notices that its last channel is gone. A run is any interleaving of events of all parties, so a
  theorem about reachable states is a theorem about every schedule. The client is `DispatchProtocol` and
  `ClientProtocol`, the server `ServerProtocol`, both joined by two FIFO wires `System`.
- **Objects.** The source's poll functions are methods with loops over mutable state: `RequestDispatch`,
  `BaseChannel`, `MaxRequests`, `Requests`, `MaxChannelsPerKey` and the two `InFlightRequests`. Each
  method returns a ghost trace of events and ensures that this trace leads from the old to the new state
  of the machine, and that what has left the input stream is what the machine received, so everything proved
  of runs holds of the objects; further postconditions say what a poll achieved. A poll runs over a frozen
  environment, every loop has a decreasing measure, and each operation on a sink fails whenever the
  environment decides so.

| file | contents |
|---|---|
| Types, Flights, Transports | messages and errors; the map of requests with its timers; a buffered sink with a stream |
| DispatchProtocol, DispatchProofs | the dispatcher's steps, its invariants and their preservation |
| ClientProtocol, ClientFates, ClientProofs, ClientTheorems, ClientOrder | callers and dispatcher together; theorems over all interleavings |
| ClientInFlight, Dispatch, DispatchTheorems | the client's objects, and what the theorems say about them |
| ServerProtocol, ServerProofs, ServerTheorems | one server channel with its handlers; theorems over all runs |
| Discipline | what a stream of requests adds to a channel, stated on events; theorems over all runs that obey it |
| ServerInFlight, BaseChannel, Throttler, Requests | the server's objects, proved to obey that discipline, and their theorems |
| System | client and server over two FIFO wires; end-to-end theorems |
| ChannelLimits | the limit on channels per key: state machine, theorems and object |
| Deadlines | deadlines that travel as time left |

Several statements one would expect are false of the code. Each comes with a run or a poll that shows it
and with the condition under which it holds:

- A drained client has nothing in flight: `LeakStrandsRequest`, `DrainedMeansEmpty`.
- A written response belongs to the request tracked under its id: `ReuseCrossesTalk`, `OwnReplyIffNotReused`.
- A guard's cancellation untracks its own request: `ReuseUntracksAnother`, `OwnGuardIffNotReused`.
- A request is turned away only while the limit is reached: `TurnedAwayWhileIdle`, `TurnedAwayIffFullAtCheck`.
- A stream that waits has nothing to read: `StalledPoll`, and `Idle` with `LookedBetween` in the contract of
  `Requests.PollNext`.
- A dropped call is cancelled at the server: `ExpiryForgetsCancel`, `UnderWayIffNotExpired`.
- A key's open channels stay within the limit: `LateNoticeBreaksLimit`, `SafeIffNoOrphans`, `UnsafeIffStale`.
- A limit of zero channels lets none in: `ZeroLetsOneIn`, `LimitHolds`.

Where a comment of the source and its code disagree, the model follows the code: the comment at
tarpc/src/client/in_flight_requests.rs:119-120 asks the caller to send a cancel for every expired request,
while tarpc/src/client.rs:385-393 deliberately sends none.

Conventions: `Option`, `Result` and `Poll` stand for the Rust types; a fact that only the proof needs
(history, the handler a response came from) is marked as history and never influences a step.

## Model

| member | source | states |
|---|---|---|
| `ClientTheorems.CancellationRace` | tarpc/src/client.rs:216-233 | In every reachable state, a request in flight whose receiver is closed has its guard between close and cancel, or its id still in the cancellation queue |
| `ClientTheorems.EarlyCancelIsNotMissed` | tarpc/src/client.rs:435-473 | Once a dropped call's cancel has been consumed, its request is in flight in no continuation of the run, even if the request is received only later |
| `ClientTheorems.ConsumedForever` | tarpc/src/client.rs:218-227 | Cancel consumed, receiver closed and request not in flight is kept by every move of every party |
| `ClientProofs.StepCommits` | tarpc/src/client.rs:435-448 | The only step that lets a request become in flight is the closed-check, and it does so only for an open receiver |
| `ClientProofs.StepKeepsCancel` | tarpc/src/client.rs:457-473 | A cancellation leaves the queue only together with its request: what is in flight afterwards is still queued for cancelling |
| `ClientProofs.StepSettles` | tarpc/src/client/in_flight_requests.rs:80-136 | A sender that was used or dropped is never touched again by any step of the dispatcher |
| `ClientTheorems.ExactlyOnePlace` | tarpc/src/client.rs:417-606 | Conservation: every accepted request occurs exactly once among queue, dispatcher's hand, in-flight map and settled requests; every other id occurs nowhere |
| `ClientTheorems.AtMostOneValue` | tarpc/src/client.rs:495-606 | Over any run each oneshot is sent at most one value, and a settled one keeps its value |
| `ClientTheorems.ShutdownIsTruthful` | tarpc/src/client.rs:199-212 | A waiting caller's sender is dropped only once the dispatcher is gone; Shutdown is reported only then, or to a call that was turned away by a closed queue |
| `ClientTheorems.DrainedMeansEmpty` | tarpc/src/client.rs:370-398 | With both queues closed and empty, the requests in flight are exactly the unanswered ones of forgotten futures; without such futures nothing is in flight |
| `ClientTheorems.LeakStrandsRequest` | tarpc/src/client.rs:618-631 | A run in which one future is forgotten reaches drained queues with a request still in flight |
| `ClientTheorems.TerminalErrorIsFinal` | tarpc/src/client.rs:645-665 | After a terminal error no continuation reads or writes the transport or changes the error, and requests end only with that error, aborted or discarded |
| `ClientTheorems.TerminalErrorDrains` | tarpc/src/client.rs:575-606 | When the dispatcher ends with an error it is the first one, queue, map and permits are empty, every accepted request is settled, and every unanswered caller still waiting was sent that error |
| `ClientTheorems.FinishedIsSettled` | tarpc/src/client.rs:583-604 | In a dispatcher that ended with an error every accepted request is settled, and only closed calls were aborted |
| `ClientTheorems.RequestsAreWrittenOnce` | tarpc/src/client.rs:495-532 | Each request is written at most once, exactly as recorded for its call; `CallHandsOver` says that this is what the caller passed |
| `ClientTheorems.CallHandsOver` | tarpc/src/client.rs:131-165 | Over every run: the calls draw the ids 0, 1, 2 and so on, and at any later time the request of a call, and what is written for its id, is the caller's body with the caller's deadline |
| `ClientTheorems.RunKeepsRequest` | tarpc/src/client.rs:131-165 | No move of any party changes the request of a call, and each call draws the next id |
| `ClientOrder.WrittenInOrder` | tarpc/src/client.rs:417-449 | Over every run: of two requests that are written, the one handed over first is written first |
| `ClientOrder.StepOrder` | tarpc/src/client.rs:417-606 | Every step of the dispatcher keeps the order of any two requests: in the queue, past it, and on the wire |
| `ClientTheorems.QueueIsBounded` | tarpc/src/client.rs:244 | Requests waiting for the dispatcher and permits to add one never exceed the configured buffer |
| `ClientTheorems.CancelledOnce` | tarpc/src/client.rs:216-233 | No call is in the cancellation queue twice |
| `ClientTheorems.CancelFollowsRequest` | tarpc/src/client.rs:540-558 | A cancel is written at most once, after its own request, and only for a call whose future was dropped |
| `ClientTheorems.CancelledReachesTheWire` | tarpc/src/client.rs:540-558 | The converse: a request taken out of flight by its caller's cancellation was written, and its cancel is written too, unless the dispatcher is just about to write it or a write error is recorded |
| `ClientTheorems.OutcomesAreTrue` | tarpc/src/client.rs:199-212 | What a resolved call is told is what happened: a response with its id carried the answer, its deadline has passed, its request was never written, the channel error is the recorded one, or the dispatcher is gone |
| `ClientFates.StepFate` | tarpc/src/client/in_flight_requests.rs:80-136 | Every step of the dispatcher keeps every request's recorded fate true of the log, the responses read, the clock and the recorded error; in-flight timers never fire before the deadline |
| `ClientFates.NextFate` | tarpc/src/client.rs:116-233 | So does every move of every caller |
| `ClientTheorems.InsertNeverPanics` | tarpc/src/client.rs:521-523 | The insertion the source expects to succeed always does: the id is free and there is capacity |
| `ClientTheorems.AnswersAreRouted` | tarpc/src/client.rs:561-571 | A caller resolves to a value or a server error only if a response with its own id carried exactly that |
| `ClientTheorems.MapAndTimersAgree` | tarpc/src/client/in_flight_requests.rs:56-136 | In every reachable state ids and timers are in bijection, equally many and within the maximum, empty together, and each expiry removes exactly its own request |
| `ClientTheorems.DueIffPastDeadline` | tarpc/src/client/in_flight_requests.rs:63-72 | The timer of a request in flight is due exactly once the deadline its caller gave has passed: neither early nor late |
| `ClientTheorems.PollIsRun` | tarpc/src/client.rs:639-665 | The trace of a whole poll from a reachable state leads to a reachable state |
| `ClientProofs.NextInv` | tarpc/src/client.rs:116-233 | Every move of every caller and of the dispatcher keeps all invariants of the client |
| `DispatchProofs.StepInv` | tarpc/src/client.rs:349-636 | Every step of the dispatcher keeps places, senders, log, routing and life cycle in order |
| `Flights.InsertAgrees` | tarpc/src/client/in_flight_requests.rs:56-77 | Inserting under a fresh id with a fresh timer key keeps the bijection of ids and timers |
| `Flights.RemoveAgrees` | tarpc/src/client/in_flight_requests.rs:80-93 | Removing an id and its stored timer keeps the bijection and removes that id only |
| `Flights.ExpireIsRemove` | tarpc/src/client/in_flight_requests.rs:121-136 | A popped timer always finds its entry, and popping it is the same as removing that entry |
| `Flights.EmptyTogether` | tarpc/src/server/in_flight_requests.rs:97-102 | The deadline queue is empty exactly if the map is |
| `Flights.SameSize` | tarpc/src/client/in_flight_requests.rs:46-53 | There are as many timers as requests |
| `ClientInFlight.InFlightRequests.InsertRequest` | tarpc/src/client/in_flight_requests.rs:56-77 | Succeeds exactly on a free id and then adds request and timer; otherwise changes nothing; `DueIffPastDeadline` says what the timer means |
| `ClientInFlight.InFlightRequests.CompleteRequest` | tarpc/src/client/in_flight_requests.rs:80-93 | Removes the request with its timer and sends the result to its caller, only if it was there |
| `ClientInFlight.InFlightRequests.CompleteAllRequests` | tarpc/src/client/in_flight_requests.rs:96-106 | Every caller in flight is sent the result, in any order, nobody else is, and map and timers are empty |
| `ClientInFlight.InFlightRequests.CancelRequest` | tarpc/src/client/in_flight_requests.rs:109-118 | Removes the request with its timer and drops its sender without a value, only if it was there |
| `ClientInFlight.InFlightRequests.PollExpired` | tarpc/src/client/in_flight_requests.rs:121-136 | Yields a request whose timer is due, completed and removed with its timer; yields nothing only if no timer is due |
| `Dispatch.RequestDispatch.constructor` | tarpc/src/client.rs:237-262 | The initial object is the initial state of the machine |
| `Dispatch.RequestDispatch.EnsureWriteable` | tarpc/src/client.rs:479-487 | Ready means a message fits, Pending means a flush is blocked; nothing is read or written meanwhile; which operation of the sink fails, and why, decides the error exactly |
| `Dispatch.RequestDispatch.RecvOpen` | tarpc/src/client.rs:435-448 | Yields the first queued request whose caller is still there and drops all before it, as a run of receive and abort steps |
| `Dispatch.RequestDispatch.PollNextRequest` | tarpc/src/client.rs:417-449 | As above once the transport has room and the map capacity, both of which still hold when it yields; Pending and None mean exactly what keeps it from yielding |
| `Dispatch.RequestDispatch.WriteRequest` | tarpc/src/client.rs:524-532 | The request is written and stays in flight, or the write fails and its caller is sent that failure |
| `Dispatch.RequestDispatch.PollWriteRequest` | tarpc/src/client.rs:495-532 | Moves the first live request to the wire as a run of the machine; each success makes the work left smaller |
| `Dispatch.RequestDispatch.RecvFlying` | tarpc/src/client.rs:463-473 | Yields the first cancelled id that is in flight, removed from the map, and drops all before it |
| `Dispatch.RequestDispatch.PollNextCancellation` | tarpc/src/client.rs:457-473 | As above once the transport has room, which it still has when it yields; None means the cancellation queue is over |
| `Dispatch.RequestDispatch.PollWriteCancel` | tarpc/src/client.rs:540-558 | Writes the cancel of that request; a failed write leaves the request removed and ends the run with a write error |
| `Dispatch.RequestDispatch.PumpRead` | tarpc/src/client.rs:349-359 | Reads one item; a response completes its caller, anything else changes nothing |
| `Dispatch.RequestDispatch.Complete` | tarpc/src/client.rs:561-571 | A response is handed to the request with its id if in flight and ignored otherwise |
| `Dispatch.RequestDispatch.PumpWrite` | tarpc/src/client.rs:361-409 | Does one piece of work, or Pending with nothing left to write and everything flushed if that is possible, or None with both queues over and the transport closed |
| `Dispatch.RequestDispatch.Run` | tarpc/src/client.rs:608-636 | Terminates; Pending means quiescent (nothing to read, no timer due, and the transport blocked or queues empty or at capacity); Ok means the peer hung up or nothing is left at all; what has left the stream is exactly what was received, in order, followed by an error only if that very error is reported; an error is one of the stream that was there to be read, or comes from an operation of the sink, and over a sink without faults no request fails to be sent |
| `Dispatch.RequestDispatch.ShutDownWithTerminalError` | tarpc/src/client.rs:575-606 | Queue closed and empty, nothing in flight, everyone given the error; Ready exactly if no permit is outstanding |
| `Dispatch.RequestDispatch.Poll` | tarpc/src/client.rs:645-665 | A run of the machine; the first error is kept, the transport is untouched from then on, and the error is returned exactly when no permit is outstanding; what has left the stream is exactly what was received, in order, followed by an error only if that very error is reported; nothing the environment decided changes; an error is recorded only if the stream broke or the sink failed, and over a sink without faults no request fails to be sent |
| `Dispatch.DrainFlights` | tarpc/src/client.rs:583-590 | Completing all requests at once is a run of completing them one by one |
| `DispatchTheorems.ReachableIsValid` | tarpc/src/client.rs:639-665 | A dispatcher that takes part in any run meets the precondition of `Poll` |
| `DispatchTheorems.PolledIsReachable` | tarpc/src/client.rs:639-665 | After a poll the dispatcher is again at a point of a run |
| `DispatchTheorems.QuiescentIsOnTime` | tarpc/src/client.rs:361-409 | When a dispatcher waits, every request in flight is still within the deadline its caller gave |
| `DispatchTheorems.ShutdownStrandsNothing` | tarpc/src/client.rs:618-631 | Unless a future was forgotten, when the write half is over nothing is in flight, so the loop ends instead of waiting |
| `DispatchTheorems.FinalPollAnswersEveryone` | tarpc/src/client.rs:575-606 | After the poll that returns the error, every caller that was unanswered and still waits has been sent that very error |
| `ServerTheorems.NoLeak` | tarpc/src/server.rs:262-274 | For a channel used without a stream: every tracked request never got an active guard, or has a guarded handler, its response queued, or its own guard queued; no assumption on ids is needed |
| `Discipline.NoLeakUnderStream` | tarpc/src/server.rs:643-908 | Between polls of `Requests`, with or without a throttler, every tracked request has a guarded handler, its response queued, or its own guard queued |
| `ServerTheorems.NothingLeftBehind` | tarpc/src/server.rs:800-908 | Once all handlers are finished and both queues are empty, nothing is tracked |
| `ServerTheorems.AbortHasReason` | tarpc/src/server/in_flight_requests.rs:66-126 | A handler is aborted only by a later cancel for its id, after its deadline, or with the channel, and is then no longer tracked; the three members below are the converse |
| `ServerTheorems.CancelAborts` | tarpc/src/server/in_flight_requests.rs:66-82 | A cancel read for a tracked request sets its handler's abort flag, stops tracking it, and touches no other flag |
| `ServerTheorems.ExpiryAborts` | tarpc/src/server/in_flight_requests.rs:97-115 | An expiry sets the abort flag of the handler of its own request, stops tracking it, and touches no other flag |
| `ServerTheorems.AtWorkIsTrackedOrAborted` | tarpc/src/server/in_flight_requests.rs:66-126 | In every reachable state, a handler still at work on an id received once is tracked or was told to stop; after the channel is dropped it was told to stop |
| `ServerTheorems.EndsAreTrue` | tarpc/src/server/in_flight_requests.rs:66-115 | Every recorded end is true of a handler of that id: told to stop by a cancel, told to stop by its deadline, dropped with its guard, or done with a response |
| `ServerTheorems.DueIffPastDeadline` | tarpc/src/server/in_flight_requests.rs:49-59 | The timer of a tracked request is due exactly once the request's deadline has passed |
| `ServerTheorems.CancelEndsTracking` | tarpc/src/server.rs:498-508 | A cancel that was read lies before the start of whatever is now tracked under its id: reading a cancel always ends its request |
| `ServerTheorems.ResponsesNeverOutnumberStarts` | tarpc/src/server.rs:547-562 | Responses written for an id, plus one if it is tracked, never outnumber its accepted starts, and those never its requests received |
| `ServerTheorems.NoAnswerAfterTheEnd` | tarpc/src/server.rs:432-562 | Between the end of a request and a later response for its id lies a new start of that id, even if a response was already queued |
| `ServerTheorems.NoAnswerAfterCancel` | tarpc/src/server.rs:498-508 | For an id received once, nothing happens to it after its end: no response follows its cancel or its expiry |
| `ServerTheorems.RespondedInOrder` | tarpc/src/server.rs:708-721 | Over every run: of two responses that are written, the one given by its handler first is written first |
| `ServerTheorems.EndsBalance` | tarpc/src/server.rs:432-562 | Starts and ends of every id balance up to the one tracked now |
| `ServerTheorems.EveryStartEnded` | tarpc/src/server.rs:509-526 | If nothing is tracked, every accepted request has ended, each end with its reason |
| `ServerTheorems.OwnReplyIffNotReused` | tarpc/src/server.rs:547-562 | The response about to be written comes from the tracked request exactly if no later request took its id |
| `ServerTheorems.ReuseCrossesTalk` | tarpc/src/server.rs:547-562 | A run in which a cancelled id is used again while its response is queued answers the new request with the old response |
| `ServerTheorems.OwnGuardIffNotReused` | tarpc/src/server.rs:454-460 | The guard about to be heard belongs to the tracked request exactly if no later request took its id |
| `ServerTheorems.ReuseUntracksAnother` | tarpc/src/server.rs:800-806 | A run in which a cancelled id is used again while its handler's guard is unheard: the guard untracks the new request, whose handler goes on |
| `ServerTheorems.EveryRequestIsAccepted` | tarpc/src/server.rs:485-498 | Every request read was accepted, or repeats the id of one that was |
| `ServerTheorems.EveryCallStartsOrRepeats` | tarpc/src/server.rs:479-498 | Over any stretch of any run, every request read repeats an id that is tracked at that very moment or starts a handler of its own |
| `ServerTheorems.MapAndTimersAgree` | tarpc/src/server/in_flight_requests.rs:43-116 | Tracked ids and timers are in bijection in every reachable state, though keys are used again |
| `ServerTheorems.PollIsRun` | tarpc/src/server.rs:432-529 | The trace of a whole poll from a reachable state leads to a reachable state |
| `ServerProofs.StepInv` | tarpc/src/server.rs:208-908 | Every step of channel and handlers keeps all invariants of the server |
| `ServerInFlight.InFlightRequests.StartRequest` | tarpc/src/server/in_flight_requests.rs:43-63 | Succeeds exactly on an untracked id and then adds request and timer; otherwise changes nothing; `DueIffPastDeadline` says what the timer means |
| `ServerInFlight.InFlightRequests.CancelRequest` | tarpc/src/server/in_flight_requests.rs:66-82 | Removes the request with its timer, which is always there, and aborts its handler, only if it was tracked |
| `ServerInFlight.InFlightRequests.RemoveRequest` | tarpc/src/server/in_flight_requests.rs:86-94 | Removes the request with its timer, which is always there, and aborts nobody |
| `ServerInFlight.InFlightRequests.PollExpired` | tarpc/src/server/in_flight_requests.rs:97-116 | Yields a request whose timer is due, removed and aborted; Pending means none is due, None that nothing is tracked |
| `ServerInFlight.InFlightRequests.DropAll` | tarpc/src/server/in_flight_requests.rs:120-127 | Aborts exactly the tracked handlers |
| `ServerChannel.BaseChannel.constructor` | tarpc/src/server.rs:162-172 | The initial object is the initial state of the machine |
| `ServerChannel.BaseChannel.StartRequest` | tarpc/src/server.rs:208-253 | A request with an untracked id gets the next handler, a duplicate is refused without effect |
| `ServerChannel.ReceiverStatus.Combine` | tarpc/src/server.rs:441-448 | Active if either is, closed only if both are |
| `ServerChannel.BaseChannel.CleanUp` | tarpc/src/server.rs:454-477 | Hears one guard and expires one request as a run; otherwise nothing is left to clean up, and closed means nothing is tracked; no guard is ever queued; a guard that waits is heard first, and what is due after that expires next |
| `ServerChannel.BaseChannel.PollInbound` | tarpc/src/server.rs:479-512 | Reads one item, and the result says which: a request not tracked is yielded under the next handle, one with a tracked id is a duplicate, a cancel is acted upon, an error is passed on with its cause, Closed and Waiting mean nothing is there; a run of at most one step |
| `ServerChannel.BaseChannel.PollNext` | tarpc/src/server.rs:432-529 | Terminates; yields a freshly tracked request as the last step of its run; None exactly means stream over and nothing tracked, Pending that nothing can be read, heard or expired and the channel is not over; guards are only taken from their queue; what has left the stream is exactly what was received, in order, followed by an error only if that very error is reported; a request that waits first and repeats no tracked id is the one yielded; whatever the result, the run starts by hearing the oldest guard and expiring what is due, if there are any |
| `ServerChannel.BaseChannel.StartSend` | tarpc/src/server.rs:547-562 | With room in the sink: writes the response if its request is tracked, and fails only then and only if the sink fails; afterwards the request is not tracked |
| `ServerChannel.BaseChannel.Drop` | tarpc/src/server/in_flight_requests.rs:120-127 | Dropping the channel is the machine's drop step |
| `Throttler.MaxRequests.PollNext` | tarpc/src/server/limits/requests_per_channel.rs:55-80 | A disciplined run, what has left the stream is exactly what was received, in order, followed by an error only if that very error is reported, so each request read is yielded or turned away by what the check before it saw; a failed write only if it is the error returned; what is in flight never grows beyond the limit; every request read is yielded or turned away with exactly one rejection written, unless that write failed, and no cancellation is queued; a new request that waits first is yielded below the limit, and turned away at the limit if the sink has room and does not fail; Pending leaves input unread exactly if it is at the limit with a full sink |
| `Throttler.MaxRequests.Reject` | tarpc/src/server/limits/requests_per_channel.rs:61-76 | The request is answered with the throttle error, is no longer tracked, and no cancel is queued |
| `Throttler.MaxRequests.TurnAway` | tarpc/src/server/limits/requests_per_channel.rs:56-78 | One turn at the limit: one request less to read, which was received and turned away, and the account of rejections kept, or a result; what has left the stream is what was received; with a full sink nothing is read |
| `Discipline.LimitOverRuns` | tarpc/src/server/limits/requests_per_channel.rs:55-80 | At every point of every disciplined run at most the limit is tracked, and one more exactly while the throttler holds a request that it read when the limit was reached; it holds one exactly if some handler never got a guard |
| `Discipline.StepKept` | tarpc/src/server/limits/requests_per_channel.rs:56-78 | Every step that obeys the discipline (a check before each read, a rejection only after a full one, a guard only after a free one) keeps the limit and leaves at most the held handler without a guard |
| `Discipline.StaysDisciplined` | tarpc/src/server.rs:924-957 | What obeys the discipline from a point of such a run leads to another point of one |
| `Discipline.HandlersMoveFreely` | tarpc/src/server.rs:871-908 | Handlers may respond, stop, be dropped and time may pass at any point of such a run |
| `Discipline.TurnedAwayWhileIdle` | tarpc/src/server/limits/requests_per_channel.rs:56-68 | A disciplined run in which the poll that expires the only request in flight turns the next one away |
| `Discipline.TurnedAwayIffFullAtCheck` | tarpc/src/server/limits/requests_per_channel.rs:55-80 | Every request read under a throttler, in every disciplined run: it is turned away exactly if the limit was reached at the last check before it was read, and then it is read below the limit exactly if some request ended between that check and the read |
| `Discipline.IntactIsDisciplined` | tarpc/src/server.rs:671-702 | A run without failed writes obeys the discipline and no request in it ended by a lost response |
| `Discipline.StaysIntact` | tarpc/src/server.rs:671-702 | What obeys the discipline and loses no write keeps a run without losses such a run |
| `Discipline.HandlersStayIntact` | tarpc/src/server.rs:871-908 | Handlers and clocks lose no response |
| `Discipline.EveryStartAccounted` | tarpc/src/server.rs:547-562 | Without failed writes and with nothing tracked, the requests accepted under an id are exactly as many as responses on the wire, cancels, expiries and guards' cancellations together |
| `Discipline.OnlyReadingAdds` | tarpc/src/server.rs:432-562 | No step but accepting a request adds to what is in flight |
| `RequestStream.Requests.PumpRead` | tarpc/src/server.rs:643-669 | A request yielded by the channel, limited or not, is a newly read one and held with its guard active; all other new requests were turned away; Pending means nothing can be read, or the throttler was at its limit with a full sink; what has left the stream is exactly what was received, in order, followed by an error only if that very error is reported; below the limit a new request that waits first is yielded |
| `RequestStream.Requests.EnsureWriteable` | tarpc/src/server.rs:725-733 | Ready means a response fits, Pending means a flush is blocked; which operation of the sink fails, and why, decides the error exactly |
| `RequestStream.Requests.PollNextResponse` | tarpc/src/server.rs:708-721 | Takes the oldest response once it fits, and it still does; Pending means none is queued or a flush is blocked; an error means the sink failed |
| `RequestStream.Requests.PumpWrite` | tarpc/src/server.rs:671-702 | Exactly one response is written and success reported, or its write failed and a write error is reported, or nothing was tried; None exactly if reading is over, nothing is tracked or queued and everything is flushed; Pending otherwise has everything flushed unless blocked; with a sink that works and can be flushed a response that waits is written |
| `RequestStream.Requests.DropRequest` | tarpc/src/server.rs:800-806 | A request read but not handed out is cancelled by its guard |
| `RequestStream.Requests.GiveUp` | tarpc/src/server.rs:932-935 | When writing fails right after a read, no new request is left with an active or inert guard: each was turned away, or dropped with its guard queued |
| `RequestStream.Requests.WriteHalf` | tarpc/src/server.rs:931-957 | After a read: a request that was read is handed out, or given up to its guard exactly on a write half's error; a failed write only if it is that error; with a sink that works and can be flushed, also on a yield, a response that waited is taken and written, or everything has left if none waited |
| `RequestStream.Requests.PollNext` | tarpc/src/server.rs:924-957 | Terminates; a disciplined run; what has left the stream is exactly what was received, in order, followed by an error only if that very error is reported; below the limit a new request that waits first is yielded, unless the sink fails; a write failed only if that is the error returned; yields a newly read, guarded request and keeps the limit; handlers that were there are unchanged, and unless an error is returned every other new one was turned away (on an error one may have been dropped with its guard queued); unless it fails, and also when it yields, it pumps the write half: with a sink that works and can be flushed the queue of responses gets shorter, or everything has left if it was empty; an error is of reading or comes from the sink; ends only with the stream over, nothing tracked, queued or unheard and everything flushed; waits with everything written that can be, and with input unread exactly if the limit was reached and as much was written and unflushed as the sink holds when the throttler looked, which was during this poll |
| `StreamTheorems.CleanEndAccountsForAll` | tarpc/src/server.rs:924-957 | When the stream ends and no poll has reported a failed write, every request ever accepted was answered on the wire, cancelled, expired or given up by its guard, id by id; no response was lost and everything is flushed |
| `StreamTheorems.IdleMeansHandlersWork` | tarpc/src/server.rs:671-702 | While the stream waits with room to write, everything tracked has a guarded handler at work; only if the throttler found the sink full may a dropped handler's guard be unheard |
| `StreamTheorems.WaitingIsOnTime` | tarpc/src/server.rs:454-477 | When a channel has nothing to do, everything tracked is still within its deadline |
| `StreamTheorems.PollStaysDisciplined` | tarpc/src/server.rs:924-957 | A poll of the stream leads from one point of a disciplined run to another |
| `StreamTheorems.PollStaysIntact` | tarpc/src/server.rs:924-957 | A poll that reports no failed write leads from a run without failed writes to another |
| `StreamTheorems.HarmlessRunIsIntact` | tarpc/src/server.rs:924-957 | However polls that report no failed write and moves of handlers alternate, no write has failed |
| `StreamTheorems.EveryRequestIsDecided` | tarpc/src/server/limits/requests_per_channel.rs:55-80 | Every request that a poll of the throttler takes off the stream repeats an id tracked at that moment, is the one yielded, has exactly one answer of its handler written, a rejection, or is the one whose rejection failed to be written |
| `StreamTheorems.EveryRequestIsSeenTo` | tarpc/src/server.rs:924-957 | Every request that a poll of the stream takes off the wire repeats an id tracked at that moment, is the one yielded, was turned away, or, only on an error, was dropped with its guard queued |
| `StreamTheorems.StalledPoll` | tarpc/src/server/limits/requests_per_channel.rs:56-58 | A poll at the limit, with a full sink that can be flushed and a request to read: it waits, with room in the sink and the request unread |
| `StreamTheorems.AtTheLimitIsReached` | tarpc/src/server/limits/requests_per_channel.rs:56-58 | The state that poll starts from is a point of a disciplined run |
| `System.NoCrossTalk` | tarpc/src/client.rs:131-165 | End to end: a call that resolves to a value or a server error got the result of the one handler that ran its own request, or the throttler's error |
| `System.AnswerIsDelivered` | tarpc/src/client.rs:561-571 | The converse of routing: once the client has read the server's answer to a call, the call is settled with it, unless its deadline or its own cancellation came first; a caller that still waits has been sent it |
| `System.HandlerGetsTheCall` | tarpc/src/client.rs:131-165 | End to end: the handler of an id works on the body and the deadline that the caller which drew that id passed |
| `System.OneHandlerPerCall` | tarpc/src/server.rs:479-498 | Each handler runs exactly the request of the call with its id, and no second handler does |
| `System.LinearToken` | tarpc/src/server.rs:485-562 | Each id is at most once in one of: request wire, tracked map, response wire |
| `System.CancelNeverOvertakes` | tarpc/src/server.rs:498-508 | The server reads a cancel only after its request, once, and only for a call whose future was dropped |
| `System.OnlyDroppedCallsAreAborted` | tarpc/src/server/in_flight_requests.rs:66-82 | A handler aborted by a cancel belongs to a call whose caller dropped it |
| `System.CancelStopsHandler` | tarpc/src/server/in_flight_requests.rs:66-82 | Once the server has read a cancel, the dropped call is not tracked and its one handler was told to stop or had finished; if it was tracked when the cancel was read, it was told to stop |
| `System.DroppedCallIsCancelled` | tarpc/src/client.rs:216-233 | While the server still tracks a call that was dropped, its cancel is queued, about to be written or on the wire, unless the client expired the request first or its dispatcher failed or is gone |
| `System.UnderWayIffNotExpired` | tarpc/src/client.rs:385-393 | With nothing failed and nothing left to do for it at the client, the cancel of a dropped call that the server still tracks is on the wire if and only if the request did not expire first |
| `System.ExpiryForgetsCancel` | tarpc/src/client.rs:385-393 | A run in which nothing fails, the request of a dropped call expires first, and the server goes on with no cancel queued, under way or to come |
| `System.TrackedIsUnanswered` | tarpc/src/server.rs:547-562 | While the server tracks a request the client has read no answer to it |
| `System.EndIsFinal` | tarpc/src/server.rs:547-562 | With a tarpc client, after a request's end at the server nothing is written or started for its id again |
| `System.RunInv` | tarpc/src/transport/channel.rs:30-40 | Every run of client, wires and server keeps both invariants, and what is read is a prefix of what was written |
| `ChannelLimits.LimitHolds` | tarpc/src/server/limits/channels_per_key.rs:185-245 | Over every run that hears no stale notice about a key, the channels with that key let in less those dropped, counted from the run itself, are never more than the limit, or than one if the limit is zero |
| `ChannelLimits.OpenIsCounted` | tarpc/src/server/limits/channels_per_key.rs:45-61 | In every run, what the trackers count for a key is the number of channels let in less the number dropped |
| `ChannelLimits.StrongIsSharing` | tarpc/src/server/limits/channels_per_key.rs:185-216 | In every run, each tracker counts exactly the channels that joined it and have not been dropped |
| `ChannelLimits.TrackersWithinLimit` | tarpc/src/server/limits/channels_per_key.rs:197-220 | No tracker is ever shared by more channels than the limit, whatever notices are heard |
| `ChannelLimits.SafeIffNoOrphans` | tarpc/src/server/limits/channels_per_key.rs:185-220 | For a limit of at least one, a key stays within it however many channels arrive, exactly if no open channel of the key was forgotten |
| `ChannelLimits.UnsafeIffStale` | tarpc/src/server/limits/channels_per_key.rs:232-245 | A step makes a safe key unsafe exactly if it hears a notice about that key while the key's current tracker has open channels |
| `ChannelLimits.ArriveLive` | tarpc/src/server/limits/channels_per_key.rs:185-220 | How many channels are open after any number of arrivals: the forgotten ones, and the known ones up to the limit |
| `ChannelLimits.LateNoticeBreaksLimit` | tarpc/src/server/limits/channels_per_key.rs:256-279 | With limit one, a channel admitted before the notice about its predecessor is heard leads to two open channels |
| `ChannelLimits.ZeroLetsOneIn` | tarpc/src/server/limits/channels_per_key.rs:188-196 | A limit of zero lets one channel in |
| `ChannelLimits.RefusedOnlyAtLimit` | tarpc/src/server/limits/channels_per_key.rs:197-206 | A channel is turned away only if at least as many as the limit with its key were let in and not yet dropped |
| `ChannelLimits.NoDeadKeys` | tarpc/src/server/limits/channels_per_key.rs:232-245 | Once every notice was sent and heard, no key without open channels is kept |
| `ChannelLimits.StepOrphans` | tarpc/src/server/limits/channels_per_key.rs:56-61 | Forgotten channels come from hearing notices only, as many as the removed tracker had |
| `ChannelLimits.MaxChannelsPerKey.IncrementChannelsForKey` | tarpc/src/server/limits/channels_per_key.rs:185-220 | Admits or refuses exactly as the machine does, with a fresh tracker if the old one is dead |
| `ChannelLimits.MaxChannelsPerKey.PollClosedChannels` | tarpc/src/server/limits/channels_per_key.rs:232-245 | Hears the oldest notice and forgets its key |
| `ChannelLimits.MaxChannelsPerKey.PollNext` | tarpc/src/server/limits/channels_per_key.rs:256-279 | Terminates; a run of the machine that decides on the waiting channels in order; yields the first one admitted, all before it refused, with the tracker it was admitted on; one notice is heard for each channel decided on, as long as there are any; None and Pending admit nobody and leave no channel waiting and no notice unheard |
| `Deadlines.BudgetIsWhatIsLeft` | tarpc/src/context.rs:46-60 | Over any chain of machines with any clocks the budget is the first one less the time spent on the machines, and never negative |
| `Deadlines.BudgetNeverGrows` | tarpc/src/context.rs:46-60 | The budget after a chain is at most the budget after any shorter part of it |
| `Deadlines.DeadlineMovesByTransit` | tarpc/src/context.rs:46-60 | While there is budget left, the last machine's deadline is the first one's moved by exactly the time spent between machines |

## Left out

Assumptions and boundaries of the model:

- Fewer than 2^64 calls per channel: ids are drawn from a `usize` counter and the model stops there.
- A call is not dropped between getting room in the request queue and using it, which the source does in one go; a request sent after the dispatcher is gone is lost with its sender.
- A poll sees a frozen environment: what callers, peers and clocks do happens between polls in the object layer, and between any two steps in the state machines.
- A completed flush makes the sink ready for one more message; without this the flushing loops need not end.
- Which of several due timers fires first, and the order in which requests are failed at shutdown, are left open: every order is covered.
- Instants and durations are whole numbers without an upper bound.
- Putting a response into the response queue and disarming the guard is one step of a handler; waiting for room in that queue is not modelled.
- A request that `BaseChannel` yields may also be answered by writing to the channel as a sink; that is no event of the server machine, whose requests get a guard, are turned away, or stay as yielded.
- Nested channel decorators: `Requests` is modelled over `BaseChannel` and over one `MaxRequests` around it, not over arbitrary implementations of `Channel`.

A contract that says less than one might want:

- Dispatch.RequestDispatch.Poll: says nothing about wake-ups, so quiescence means that nothing is left to do now, not that the task is woken later.

Not modelled:

- Real transports, serialization and framing, TLS, and everything below the sink and stream.
- Wakers, pinning, fused streams and executors.
- Spans, trace ids, logging and sampling.
- Capacity of hash maps.
- Request hooks, retry and load balancing: combinators around services and stubs, outside the life cycle of a request.
- The procedural macro that generates services, and the examples.
- The conversion of error kinds to numbers, a finite table; the type erasure of channel errors.
