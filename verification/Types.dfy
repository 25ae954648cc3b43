/** Messages, errors and poll results shared by the client and the server. */
module Types {
  /** Request ids. The source draws them from a `usize` counter. */
  type Id = nat

  /** Instants of one machine's monotonic clock, in clock ticks. */
  type Time = nat

  // Bodies are never inspected by the library, so the model leaves them abstract.
  type Req(==, !new)
  type Resp(==, !new)
  type Cause(==, !new)

  datatype Option<+T> = None | Some(value: T)

  datatype Result<+T, +E> = Ok(value: T) | Err(error: E)

  datatype Poll<+T> = Pending | Ready(value: T)

  datatype ErrorKind = WouldBlock | OtherKind(code: nat)

  datatype ServerError = ServerError(kind: ErrorKind, detail: string)

  /** Critical errors that disconnect a channel. */
  datatype ChannelError =
    | ReadError(cause: Cause)
    | ReadyError(cause: Cause)
    | WriteError(cause: Cause)
    | FlushError(cause: Cause)
    | CloseError(cause: Cause)

  datatype RpcError =
    | Shutdown
    | Send(cause: Cause)
    | Channel(channelError: ChannelError)
    | DeadlineExceeded
    | Server(serverError: ServerError)

  /** What a caller's future resolves to. */
  type Outcome = Result<Resp, RpcError>

  datatype Request = Request(id: Id, deadline: Time, body: Req)

  datatype ClientMessage = Call(request: Request) | Cancel(id: Id)

  datatype Response = Response(id: Id, message: Result<Resp, ServerError>)

  /** A server's error reaches the caller as an error of the server. */
  function ToOutcome(message: Result<Resp, ServerError>): Outcome {
    match message
    case Ok(v) => Ok(v)
    case Err(e) => Err(Server(e))
  }

  /** A timer that fires at `expiry` is neither early nor, unless it is due already, late for `deadline`. */
  predicate Timely(deadline: Time, expiry: Time, now: Time) {
    deadline <= expiry && (expiry == deadline || expiry <= now)
  }

  /** A timer never fires before it is set: a deadline in the past expires at once. */
  function ExpiryOf(now: Time, deadline: Time): Time {
    if deadline < now then now else deadline
  }
}
