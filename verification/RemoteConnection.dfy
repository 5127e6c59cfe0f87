/** The initialize handshake, the event consumer, and a whole connection from the first frame to the worker's exit. */
module RemoteConnection {
  import opened Common
  import opened Rpc
  import opened Remote
  import opened RemoteRuns
  import opened RemoteObjects

  // ---- The initialize handshake ----

  const INITIALIZE_ID := StringId("initialize")

  /** A frame read during the handshake (`ok` says whether a rejection it needs can be written), or the timeout. */
  datatype Frame = Frame(message: ServerMessage, ok: bool) | Timeout

  datatype Handshake = Connected(events: seq<Event>, frames: nat) | Failed(kind: ErrorKind) | Waiting

  predicate IsInitializeResponse(f: Frame) {
    && f.Frame? && f.message.Text? && f.message.parsed.Some?
    && f.message.parsed.value.RpcResponse? && f.message.parsed.value.id == INITIALIZE_ID
  }

  /** Frames that neither end nor fail the handshake. */
  predicate Passes(f: Frame) {
    match f
    case Timeout => false
    case Frame(Text(Some(RpcResponse(id, _))), _) => id != INITIALIZE_ID
    case Frame(Text(Some(RpcError(id, _))), _) => id != INITIALIZE_ID
    case Frame(Text(Some(RpcRequest(_, None))), ok) => ok
    case Frame(Text(Some(_)), _) => true
    case Frame(OtherFrame, _) => true
    case _ => false
  }

  function FailureOf(f: Frame): ErrorKind {
    match f
    case Timeout => TimedOut
    case Frame(Close(_), _) => ConnectionAborted
    case Frame(EndOfStream, _) => UnexpectedEof
    case _ => Other
  }

  function Messages(frames: seq<Frame>, n: nat): seq<ServerMessage>
    requires n <= |frames|
  {
    if n == 0 then []
    else Messages(frames, n - 1) + (if frames[n - 1].Frame? then [frames[n - 1].message] else [])
  }

  /** How many frames pass before the first that does not. */
  function Passed(frames: seq<Frame>): (k: nat)
    ensures k <= |frames|
  {
    if frames == [] || !Passes(frames[0]) then 0 else 1 + Passed(frames[1..])
  }

  lemma {:induction false} PassedIs(frames: seq<Frame>, k: nat)
    requires k <= |frames| && (forall i :: 0 <= i < k ==> Passes(frames[i])) && (k < |frames| ==> !Passes(frames[k]))
    ensures Passed(frames) == k
  {
    if k == 0 {
    } else {
      assert Passes(frames[0]);
      PassedIs(frames[1..], k - 1);
    }
  }

  /** The rejection an unknown server request calls for: a -32601 error with its own id. */
  function RejectionOf(m: ServerMessage): seq<Wire> {
    match m
    case Text(Some(RpcRequest(id, None))) => [WireError(id, METHOD_NOT_FOUND)]
    case _ => []
  }

  /** The handshake rejects what the worker would: an unknown request, with -32601 and its own id, and nothing else. */
  lemma RejectsAlike(m: ServerMessage, ok: bool)
    ensures RejectionOf(m) == WireOf(Receive(m, ok), false)
  {
    match m
    case Text(Some(RpcRequest(_, None))) =>
    case _ =>
  }

  function FrameEvents(f: Frame): seq<Event> {
    if f.Frame? then EventOf(f.message) else []
  }

  function FrameRejections(f: Frame): seq<Wire> {
    if f.Frame? then RejectionOf(f.message) else []
  }

  /** The events queued by the first `n` frames. */
  function Queued(frames: seq<Frame>, n: nat): seq<Event>
    requires n <= |frames|
  {
    if n == 0 then [] else Queued(frames, n - 1) + FrameEvents(frames[n - 1])
  }

  /** The rejections attempted for the first `n` frames. */
  function Rejected(frames: seq<Frame>, n: nat): seq<Wire>
    requires n <= |frames|
  {
    if n == 0 then [] else Rejected(frames, n - 1) + FrameRejections(frames[n - 1])
  }

  lemma EventsOfAppend(messages: seq<ServerMessage>, m: ServerMessage)
    ensures EventsOf(messages + [m]) == EventsOf(messages) + EventOf(m)
  {
    assert (messages + [m])[..|messages|] == messages;
  }

  lemma {:induction false} QueuedIsWireOrder(frames: seq<Frame>, n: nat)
    requires n <= |frames|
    ensures Queued(frames, n) == EventsOf(Messages(frames, n))
  {
    if n == 0 {
    } else {
      QueuedIsWireOrder(frames, n - 1);
      var ms := Messages(frames, n - 1);
      if frames[n - 1].Frame? {
        EventsOfAppend(ms, frames[n - 1].message);
      } else {
        assert ms + [] == ms;
      }
    }
  }

  /** What the handshake comes to: decided by the first frame that does not pass. */
  function Shake(frames: seq<Frame>): (r: Handshake)
    ensures r.Connected? ==> r.frames <= |frames| && r.events == Queued(frames, r.frames)
  {
    var k := Passed(frames);
    if k == |frames| then Waiting
    else if IsInitializeResponse(frames[k]) then Connected(Queued(frames, k + 1), k + 1)
    else Failed(FailureOf(frames[k]))
  }

  datatype Verdict = Continue(events: seq<Event>) | Accept | Refuse(kind: ErrorKind)

  /** What the handshake makes of one frame. */
  method JudgeFrame(f: Frame) returns (v: Verdict)
    ensures v.Continue? <==> Passes(f)
    ensures v.Continue? ==> v.events == FrameEvents(f)
    ensures v.Accept? ==> FrameEvents(f) == []
    ensures v.Accept? <==> IsInitializeResponse(f)
    ensures v.Refuse? ==> v.kind == FailureOf(f)
  {
    match f {
      case Timeout => return Refuse(TimedOut);
      case Frame(Text(Some(RpcResponse(id, _))), _) => return if id == INITIALIZE_ID then Accept else Continue([]);
      case Frame(Text(Some(RpcError(id, _))), _) => return if id == INITIALIZE_ID then Refuse(Other) else Continue([]);
      case Frame(Text(Some(RpcNotification(Some(notification)))), _) => return Continue([Notification(notification)]);
      case Frame(Text(Some(RpcNotification(None))), _) => return Continue([]);
      case Frame(Text(Some(RpcRequest(_, Some(request)))), _) => return Continue([ServerRequest(request)]);
      case Frame(Text(Some(RpcRequest(_, None))), ok) => return if ok then Continue([]) else Refuse(Other);
      case Frame(Text(None), _) => return Refuse(Other);
      case Frame(OtherFrame, _) => return Continue([]);
      case Frame(Close(_), _) => return Refuse(ConnectionAborted);
      case Frame(TransportError(_), _) => return Refuse(Other);
      case Frame(EndOfStream, _) => return Refuse(UnexpectedEof);
    }
  }

  /** How many frames the handshake reads: those that pass and the one that ends it. */
  function FramesRead(frames: seq<Frame>): (n: nat)
    ensures n <= |frames|
  {
    if Passed(frames) < |frames| then Passed(frames) + 1 else |frames|
  }

  /**
    The handshake loop: it queues the events it meets, tries to reject each unknown request, and stops at the
    first frame that does not pass.
   */
  method AwaitInitialize(frames: seq<Frame>) returns (r: Handshake, rejections: seq<Wire>)
    ensures r == Shake(frames)
    ensures rejections == Rejected(frames, FramesRead(frames))
  {
    var pendingEvents: seq<Event> := [];
    rejections := [];
    for n := 0 to |frames|
      invariant forall i :: 0 <= i < n ==> Passes(frames[i])
      invariant pendingEvents == Queued(frames, n)
      invariant rejections == Rejected(frames, n)
    {
      rejections := rejections + FrameRejections(frames[n]);
      var verdict := JudgeFrame(frames[n]);
      if verdict.Continue? {
        pendingEvents := pendingEvents + verdict.events;
      } else {
        PassedIs(frames, n);
        if verdict.Accept? {
          return Connected(pendingEvents, n + 1), rejections;
        }
        return Failed(verdict.kind), rejections;
      }
    }
    PassedIs(frames, |frames|);
    r := Waiting;
  }

  lemma {:induction false} PassedSpec(frames: seq<Frame>)
    ensures forall i :: 0 <= i < Passed(frames) ==> Passes(frames[i])
    ensures Passed(frames) < |frames| ==> !Passes(frames[Passed(frames)])
  {
    if frames != [] && Passes(frames[0]) {
      PassedSpec(frames[1..]);
    }
  }

  // ---- The whole handshake ----

  const INITIALIZED := WireNotification("initialized")

  /** The outcomes of the two writes around the loop. */
  datatype Writes = Writes(initialize: bool, initialized: bool)

  /** The request is written first, the loop runs, and a successful one is confirmed by a notification. */
  function Connect(writes: Writes, frames: seq<Frame>): (r: Handshake)
    ensures r.Connected? ==> r == Shake(frames)
  {
    if !writes.initialize then Failed(Other)
    else if Shake(frames).Connected? && !writes.initialized then Failed(Other)
    else Shake(frames)
  }

  /** Every write that the handshake attempts. */
  function HandshakeWrites(writes: Writes, payload: string, frames: seq<Frame>): seq<Wire> {
    [WireRequest(StringId("initialize"), payload)] +
    if !writes.initialize then []
    else
      Rejected(frames, FramesRead(frames)) +
      if Shake(frames).Connected? then [WireNotification("initialized")] else []
  }

  method InitializeConnection(writes: Writes, payload: string, frames: seq<Frame>)
    returns (r: Handshake, written: seq<Wire>)
    ensures r == Connect(writes, frames)
    ensures written == HandshakeWrites(writes, payload, frames)
  {
    written := [WireRequest(INITIALIZE_ID, payload)];
    if !writes.initialize {
      return Failed(Other), written;
    }
    var shaken, rejections := AwaitInitialize(frames);
    r := shaken;
    written := written + rejections;
    if r.Connected? {
      written := written + [INITIALIZED];
      if !writes.initialized {
        r := Failed(Other);
      }
    }
    SeqAssociative([WireRequest(INITIALIZE_ID, payload)], rejections, [INITIALIZED]);
    assert rejections + [] == rejections;
  }

  /**
    The connection is made exactly when both writes succeed and an initialize response arrives before anything that
    ends the handshake.
   */
  lemma ConnectsIff(writes: Writes, frames: seq<Frame>)
    ensures Connect(writes, frames).Connected? <==>
            && writes.initialize && writes.initialized
            && exists k :: 0 <= k < |frames| && IsInitializeResponse(frames[k]) &&
                           forall i :: 0 <= i < k ==> Passes(frames[i])
  {
    PassedSpec(frames);
    if k :| 0 <= k < |frames| && IsInitializeResponse(frames[k]) && forall i :: 0 <= i < k ==> Passes(frames[i]) {
      PassedIs(frames, k);
    }
  }

  // ---- The consumer ----

  datatype Next = Yield(event: Event) | Finished | Blocked

  class RemoteClient {
    var pendingEvents: seq<Event>
    var eventRx: seq<Event>
    var closed: bool
    ghost var yielded: seq<Event>

    /** Everything the consumer has been or will be given so far, in order. */
    ghost function Stream(): seq<Event>
      reads this
    {
      yielded + pendingEvents + eventRx
    }

    constructor (handshakeEvents: seq<Event>)
      ensures Stream() == handshakeEvents && yielded == [] && !closed
    {
      pendingEvents, eventRx, closed, yielded := handshakeEvents, [], false, [];
      new;
      assert Stream() == handshakeEvents;
    }

    /** The worker's end of the channel. */
    method Arrive(e: Event)
      requires !closed
      modifies this`eventRx
      ensures Stream() == old(Stream()) + [e]
    {
      eventRx := eventRx + [e];
      assert yielded + pendingEvents + (old(eventRx) + [e]) == yielded + pendingEvents + old(eventRx) + [e];
    }

    method HangUp()
      modifies this`closed
      ensures closed && Stream() == old(Stream())
    {
      closed := true;
    }

    /** `next_event`: handshake events first, then the channel. Nothing is lost, repeated or reordered. */
    method NextEvent() returns (r: Next)
      modifies this`pendingEvents, this`eventRx, this`yielded
      ensures Stream() == old(Stream())
      ensures r.Yield? ==> yielded == old(yielded) + [r.event]
      ensures !r.Yield? ==> yielded == old(yielded) == Stream()
      ensures r.Finished? ==> closed
    {
      if pendingEvents != [] {
        r := Yield(pendingEvents[0]);
        yielded := yielded + [pendingEvents[0]];
        pendingEvents := pendingEvents[1..];
      } else if eventRx != [] {
        r := Yield(eventRx[0]);
        yielded := yielded + [eventRx[0]];
        eventRx := eventRx[1..];
      } else {
        r := if closed then Finished else Blocked;
      }
    }
  }

  // ---- The whole connection ----

  lemma {:induction false} EventsOfConcat(a: seq<ServerMessage>, b: seq<ServerMessage>)
    ensures EventsOf(a + b) == EventsOf(a) + EventsOf(b)
  {
    if b == [] {
      assert a + b == a;
    } else {
      var front := b[..|b| - 1];
      assert (a + b)[..|a + b| - 1] == a + front;
      EventsOfConcat(a, front);
    }
  }

  /**
    From the first frame of the handshake to the exit of the worker, a consumer that stays is given exactly the
    decodable notifications and recognised requests of the whole wire, in wire order, then at most one
    `Disconnected`; `Disconnected` occurs nowhere else.
   */
  lemma ConnectionStream(writes: Writes, frames: seq<Frame>, inputs: seq<Input>, e: nat)
    requires Connect(writes, frames).Connected?
    requires StopsAt(inputs, e) && ConsumerStays(inputs, e + 1)
    ensures var hs := Connect(writes, frames);
            var wire := Messages(frames, hs.frames) + Received(inputs, e + 1);
            && hs.events + Run(inputs, e + 1).delivered == EventsOf(wire) + Causes(inputs[e])
            && |Causes(inputs[e])| <= 1
            && forall x :: x in EventsOf(wire) ==> !x.Disconnected?
  {
    var before, after := Messages(frames, Shake(frames).frames), Received(inputs, e + 1);
    DisconnectedIsLast(inputs, e);
    EventsOfConcat(before, after);
    NoDisconnectedBefore(before + after);
    QueuedIsWireOrder(frames, Shake(frames).frames);
    SeqAssociative(EventsOf(before), EventsOf(after), Causes(inputs[e]));
  }

  /** Everything that a consumer of this connection is to be given. */
  ghost function WholeStream(writes: Writes, frames: seq<Frame>, inputs: seq<Input>, e: nat): seq<Event>
    requires Connect(writes, frames).Connected? && e < |inputs|
  {
    EventsOf(Messages(frames, Connect(writes, frames).frames) + Received(inputs, e + 1)) + Causes(inputs[e])
  }

  /**
    The consumer against a channel that fills as it reads: `arrivals` says, turn by turn, whether the worker delivers
    its next event or the consumer asks for one. What it has been given at any moment is a prefix of the stream, and
    in the end it is all of it.
   */
  method Consume(client: RemoteClient, events: seq<Event>, arrivals: seq<bool>)
    returns (early: seq<Event>, all: seq<Event>)
    requires !client.closed && client.yielded == []
    modifies client
    ensures early <= old(client.Stream()) + events
    ensures all == old(client.Stream()) + events
  {
    ghost var stream := client.Stream() + events;
    early := [];
    var sent := 0;
    for i := 0 to |arrivals|
      invariant 0 <= sent <= |events| && !client.closed && client.yielded == early
      invariant client.Stream() + events[sent..] == stream
    {
      if arrivals[i] && sent < |events| {
        assert events[sent..] == [events[sent]] + events[sent + 1..];
        client.Arrive(events[sent]);
        sent := sent + 1;
      } else {
        var next := client.NextEvent();
        if next.Yield? {
          early := early + [next.event];
        }
      }
    }
    YieldedIsPrefix(client.yielded, client.pendingEvents, client.eventRx, events[sent..]);
    while sent < |events|
      invariant 0 <= sent <= |events| && !client.closed && client.yielded == early
      invariant client.Stream() + events[sent..] == stream
    {
      assert events[sent..] == [events[sent]] + events[sent + 1..];
      client.Arrive(events[sent]);
      sent := sent + 1;
    }
    assert client.Stream() == stream;
    client.HangUp();
    all := DrainStream(client, early);
  }

  lemma YieldedIsPrefix(yielded: seq<Event>, pending: seq<Event>, rx: seq<Event>, rest: seq<Event>)
    ensures yielded <= yielded + pending + rx + rest
  {
  }

  /** Asking until the end of the stream. */
  method DrainStream(client: RemoteClient, early: seq<Event>) returns (all: seq<Event>)
    requires client.closed && client.yielded == early
    modifies client
    ensures all == old(client.Stream())
  {
    all := early;
    ghost var stream := client.Stream();
    var next := client.NextEvent();
    while next.Yield?
      invariant client.closed && client.Stream() == stream
      invariant next.Yield? ==> client.yielded == all + [next.event]
      invariant !next.Yield? ==> client.yielded == all == stream
      invariant |client.yielded| <= |stream|
      decreases |stream| - |all|, next.Yield?
    {
      all := all + [next.event];
      next := client.NextEvent();
    }
  }

  /**
    A whole connection: the handshake, the worker and a consumer that reads while events arrive. At any moment it has
    been given a prefix of the connection's stream, and in the end all of it.
   */
  method RunConnection(
    writes: Writes, payload: string, frames: seq<Frame>, inputs: seq<Input>, ghost e: nat, arrivals: seq<bool>)
    returns (early: seq<Event>, all: seq<Event>)
    requires Connect(writes, frames).Connected? && StopsAt(inputs, e) && ConsumerStays(inputs, e + 1)
    ensures early <= all == WholeStream(writes, frames, inputs, e)
  {
    var handshake, _ := InitializeConnection(writes, payload, frames);
    var worker := new RemoteWorker();
    worker.Loop(inputs);
    StoppedForGood(inputs, e, |inputs|);
    ConnectionStream(writes, frames, inputs, e);
    var client := new RemoteClient(handshake.events);
    early, all := Consume(client, worker.delivered, arrivals);
  }
}
