/** The websocket app-server client: its worker as a step function over what the select loop sees. */
module Remote {
  import opened Common
  import opened Rpc

  const METHOD_NOT_FOUND := -32601

  datatype ErrorKind = InvalidInput | BrokenPipe | InvalidData | ConnectionAborted | UnexpectedEof | TimedOut | Other

  /** Decoding a notification or request into a known type is left to the protocol crate: its result is given. */
  datatype JsonRpc =
    | RpcResponse(id: RequestId, result: string)
    | RpcError(id: RequestId, error: string)
    | RpcNotification(notification: Option<string>)
    | RpcRequest(id: RequestId, request: Option<string>)

  datatype ServerMessage =
    | Text(parsed: Option<JsonRpc>)
    | Close(reason: string)
    | OtherFrame
    | TransportError(error: string)
    | EndOfStream

  datatype Cause = WriteFailed | InvalidJson | ClosedByServer(reason: string) | TransportFailed(error: string) | Ended

  datatype Event = Notification(notification: string) | ServerRequest(request: string) | Disconnected(cause: Cause)

  datatype Command =
    | Request(id: RequestId, payload: string)
    | Notify(payload: string)
    | Resolve(id: RequestId, result: string)
    | Reject(id: RequestId, code: int)
    | Shutdown

  /** What the worker is woken by. `ok` says whether the write or close done while handling it succeeds. */
  datatype Input =
    | Take(command: Command, ok: bool)
    | CommandsClosed
    | Receive(message: ServerMessage, ok: bool)
    | ConsumerDropped

  datatype Reply = Answered(result: string) | Refused(error: string) | Done | IoFailed(kind: ErrorKind)

  datatype Wire =
    | WireRequest(id: RequestId, payload: string)
    | WireNotification(payload: string)
    | WireResponse(id: RequestId, result: string)
    | WireError(id: RequestId, code: int)

  /**
    The responder of a command is named by the place of its input in the run. `inbox` holds what has been sent
    to each responder, `delivered` what has been sent to the event consumer, `written` every attempted write.
   */
  datatype Worker = Worker(
    pending: map<RequestId, nat>, running: bool, exit: Option<ErrorKind>, consumerAlive: bool,
    inbox: map<nat, seq<Reply>>, delivered: seq<Event>, written: seq<Wire>)

  const FRESH := Worker(map[], true, None, true, map[], [], [])

  function Sent(w: Worker, responder: nat): seq<Reply> {
    if responder in w.inbox then w.inbox[responder] else []
  }

  function Send(w: Worker, responder: nat, reply: Reply): Worker {
    w.(inbox := w.inbox[responder := Sent(w, responder) + [reply]])
  }

  /** `deliver_event` whose failure is ignored. */
  function Deliver(w: Worker, e: Event): Worker {
    if w.consumerAlive then w.(delivered := w.delivered + [e]) else w
  }

  function Disconnect(w: Worker, cause: Cause, kind: ErrorKind): Worker {
    Deliver(w, Disconnected(cause)).(running := false, exit := Some(kind))
  }

  /** `deliver_event` whose failure ends the worker. */
  function DeliverOrStop(w: Worker, e: Event): Worker {
    if w.consumerAlive then Deliver(w, e) else w.(running := false)
  }

  function Attempt(w: Worker, m: Wire): Worker {
    w.(written := w.written + [m])
  }

  function Outcome(ok: bool): Reply {
    if ok then Done else IoFailed(Other)
  }

  function HandleCommand(w: Worker, n: nat, c: Command, ok: bool): Worker {
    match c
    case Request(id, payload) =>
      if id in w.pending then Send(w, n, IoFailed(InvalidInput))
      else if ok then Attempt(w, WireRequest(id, payload)).(pending := w.pending[id := n])
      else Disconnect(Send(Attempt(w, WireRequest(id, payload)), n, IoFailed(Other)), WriteFailed, BrokenPipe)
    case Notify(payload) => Send(Attempt(w, WireNotification(payload)), n, Outcome(ok))
    case Resolve(id, result) => Send(Attempt(w, WireResponse(id, result)), n, Outcome(ok))
    case Reject(id, code) => Send(Attempt(w, WireError(id, code)), n, Outcome(ok))
    case Shutdown => Send(w, n, Outcome(ok)).(running := false)
  }

  function Answer(w: Worker, id: RequestId, reply: Reply): Worker {
    if id in w.pending then Send(w, w.pending[id], reply).(pending := w.pending - {id}) else w
  }

  function HandleRpc(w: Worker, m: JsonRpc, ok: bool): Worker {
    match m
    case RpcResponse(id, result) => Answer(w, id, Answered(result))
    case RpcError(id, error) => Answer(w, id, Refused(error))
    case RpcNotification(None) => w
    case RpcNotification(Some(notification)) => DeliverOrStop(w, Notification(notification))
    case RpcRequest(_, Some(request)) => DeliverOrStop(w, ServerRequest(request))
    case RpcRequest(id, None) =>
      var w' := Attempt(w, WireError(id, METHOD_NOT_FOUND));
      if ok then w' else Disconnect(w', WriteFailed, BrokenPipe)
  }

  function HandleMessage(w: Worker, m: ServerMessage, ok: bool): Worker {
    match m
    case Text(Some(rpc)) => HandleRpc(w, rpc, ok)
    case Text(None) => Disconnect(w, InvalidJson, InvalidData)
    case Close(reason) => Disconnect(w, ClosedByServer(reason), ConnectionAborted)
    case OtherFrame => w
    case TransportError(error) => Disconnect(w, TransportFailed(error), InvalidData)
    case EndOfStream => Disconnect(w, Ended, UnexpectedEof)
  }

  function Handle(w: Worker, n: nat, input: Input): Worker {
    match input
    case Take(c, ok) => HandleCommand(w, n, c, ok)
    case CommandsClosed => w.(running := false)
    case Receive(m, ok) => HandleMessage(w, m, ok)
    case ConsumerDropped => w.(consumerAlive := false)
  }

  function ExitKind(w: Worker): ErrorKind {
    if w.exit.Some? then w.exit.value else BrokenPipe
  }

  /** On exit every responder still pending is sent the exit error; their order does not matter. */
  function Drain(w: Worker): Worker {
    w.(pending := map[],
       inbox := map i | i in w.inbox.Keys + w.pending.Values ::
                  Sent(w, i) + (if i in w.pending.Values then [IoFailed(ExitKind(w))] else []))
  }

  /** One turn of the loop; a stopped worker takes nothing more. */
  function Step(w: Worker, n: nat, input: Input): Worker {
    if !w.running then w
    else
      var w' := Handle(w, n, input);
      if w'.running then w' else Drain(w')
  }

  function Run(inputs: seq<Input>, n: nat): Worker
    requires n <= |inputs|
  {
    if n == 0 then FRESH else Step(Run(inputs, n - 1), n - 1, inputs[n - 1])
  }
}
