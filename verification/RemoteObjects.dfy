/** The worker loop, as the code runs it. */
module RemoteObjects {
  import opened Common
  import opened Rpc
  import opened Remote
  import opened RemoteRuns

  class RemoteWorker {
    var pendingRequests: map<RequestId, nat>
    var running: bool
    var exitError: Option<ErrorKind>
    var consumerAlive: bool
    var inbox: map<nat, seq<Reply>>
    var delivered: seq<Event>
    var written: seq<Wire>

    function Contents(): Worker
      reads this
    {
      Worker(pendingRequests, running, exitError, consumerAlive, inbox, delivered, written)
    }

    constructor ()
      ensures Contents() == FRESH
    {
      pendingRequests, running, exitError, consumerAlive := map[], true, None, true;
      inbox, delivered, written := map[], [], [];
    }

    method SendReply(responder: nat, reply: Reply)
      modifies this`inbox
      ensures Contents() == Send(old(Contents()), responder, reply)
    {
      inbox := inbox[responder := (if responder in inbox then inbox[responder] else []) + [reply]];
    }

    method DeliverEvent(e: Event) returns (ok: bool)
      modifies this`delivered
      ensures ok == consumerAlive
      ensures Contents() == Deliver(old(Contents()), e)
    {
      ok := consumerAlive;
      if ok {
        delivered := delivered + [e];
      }
    }

    method Break(cause: Cause, kind: ErrorKind)
      modifies this`delivered, this`running, this`exitError
      ensures Contents() == Disconnect(old(Contents()), cause, kind)
    {
      var _ := DeliverEvent(Disconnected(cause));
      exitError := Some(kind);
      running := false;
    }

    method TakeCommand(n: nat, command: Command, ok: bool)
      modifies this
      ensures Contents() == HandleCommand(old(Contents()), n, command, ok)
      ensures !command.Request? ==>
        Sent(Contents(), n) == old(Sent(Contents(), n)) + [if ok then Done else IoFailed(Other)]
    {
      match command {
        case Request(id, payload) =>
          if id in pendingRequests {
            SendReply(n, IoFailed(InvalidInput));
            return;
          }
          ghost var before := pendingRequests;
          pendingRequests := pendingRequests[id := n];
          written := written + [WireRequest(id, payload)];
          if !ok {
            if id in pendingRequests {
              var responder := pendingRequests[id];
              pendingRequests := pendingRequests - {id};
              assert pendingRequests == before;
              SendReply(responder, IoFailed(Other));
            }
            Break(WriteFailed, BrokenPipe);
          }
        case Notify(payload) =>
          written := written + [WireNotification(payload)];
          SendReply(n, Outcome(ok));
        case Resolve(id, result) =>
          written := written + [WireResponse(id, result)];
          SendReply(n, Outcome(ok));
        case Reject(id, code) =>
          written := written + [WireError(id, code)];
          SendReply(n, Outcome(ok));
        case Shutdown =>
          SendReply(n, Outcome(ok));
          running := false;
      }
    }

    method RouteAnswer(id: RequestId, reply: Reply)
      modifies this`pendingRequests, this`inbox
      ensures Contents() == Answer(old(Contents()), id, reply)
    {
      if id in pendingRequests {
        var responder := pendingRequests[id];
        pendingRequests := pendingRequests - {id};
        SendReply(responder, reply);
      }
    }

    method RouteEvent(e: Event)
      modifies this`delivered, this`running
      ensures Contents() == DeliverOrStop(old(Contents()), e)
    {
      var ok := DeliverEvent(e);
      if !ok {
        running := false;
      }
    }

    method ReceiveMessage(message: ServerMessage, ok: bool)
      modifies this
      ensures Contents() == HandleMessage(old(Contents()), message, ok)
    {
      match message {
        case Text(Some(RpcResponse(id, result))) => RouteAnswer(id, Answered(result));
        case Text(Some(RpcError(id, error))) => RouteAnswer(id, Refused(error));
        case Text(Some(RpcNotification(Some(notification)))) => RouteEvent(Notification(notification));
        case Text(Some(RpcNotification(None))) =>
        case Text(Some(RpcRequest(_, Some(request)))) => RouteEvent(ServerRequest(request));
        case Text(Some(RpcRequest(id, None))) =>
          written := written + [WireError(id, METHOD_NOT_FOUND)];
          if !ok {
            Break(WriteFailed, BrokenPipe);
          }
        case Text(None) => Break(InvalidJson, InvalidData);
        case Close(reason) => Break(ClosedByServer(reason), ConnectionAborted);
        case OtherFrame =>
        case TransportError(error) => Break(TransportFailed(error), InvalidData);
        case EndOfStream => Break(Ended, UnexpectedEof);
      }
    }

    method HandleInput(n: nat, input: Input)
      modifies this
      ensures Contents() == Handle(old(Contents()), n, input)
    {
      match input {
        case Take(command, ok) => TakeCommand(n, command, ok);
        case CommandsClosed => running := false;
        case Receive(message, ok) => ReceiveMessage(message, ok);
        case ConsumerDropped => consumerAlive := false;
      }
    }

    /** The exit drain: the pending responders, in whatever order the map yields them. */
    method DrainPending()
      requires RespondersDistinct(pendingRequests)
      modifies this`pendingRequests, this`inbox
      ensures Contents() == Drain(old(Contents()))
    {
      var kind := if exitError.Some? then exitError.value else BrokenPipe;
      while pendingRequests != map[]
        invariant RespondersDistinct(pendingRequests)
        invariant Drain(Contents()) == Drain(old(Contents()))
        decreases |pendingRequests.Keys|
      {
        var id :| id in pendingRequests;
        var responder := pendingRequests[id];
        DrainStep(Contents(), id);
        ghost var before := pendingRequests.Keys;
        pendingRequests := pendingRequests - {id};
        assert pendingRequests.Keys == before - {id};
        SendReply(responder, IoFailed(kind));
      }
      DrainNothing(Contents());
    }

    /** The select loop over everything the worker is woken by, then the drain if it stopped. */
    method Loop(inputs: seq<Input>)
      requires Contents() == FRESH
      modifies this
      ensures Contents() == Run(inputs, |inputs|)
    {
      var n := 0;
      while n < |inputs| && running
        invariant 0 <= n <= |inputs|
        invariant running ==> Contents() == Run(inputs, n)
        invariant !running ==> n > 0 && Broke(inputs, n - 1, Contents())
      {
        HandleInput(n, inputs[n]);
        BreakOrGoOn(inputs, n, Contents());
        n := n + 1;
      }
      if !running {
        DrainAfterBreak(inputs, n - 1, Contents());
        DrainPending();
      }
    }
  }

  /** `h` is the worker as it leaves the loop on input `e`, before the drain. */
  ghost predicate Broke(inputs: seq<Input>, e: nat, h: Worker) {
    e < |inputs| && Run(inputs, e).running && !h.running && h == Handle(Run(inputs, e), e, inputs[e])
  }

  lemma BreakOrGoOn(inputs: seq<Input>, n: nat, h: Worker)
    requires n < |inputs| && Run(inputs, n).running && h == Handle(Run(inputs, n), n, inputs[n])
    ensures if h.running then h == Run(inputs, n + 1) else Broke(inputs, n, h)
  {
  }

  lemma DrainAfterBreak(inputs: seq<Input>, e: nat, h: Worker)
    requires Broke(inputs, e, h)
    ensures RespondersDistinct(h.pending) && Drain(h) == Run(inputs, |inputs|)
  {
    RespondersDiffer(inputs, e);
    assert Run(inputs, e + 1) == Drain(h);
    StoppedForGood(inputs, e, |inputs|);
  }

  ghost predicate RespondersDistinct(p: map<RequestId, nat>) {
    forall x, y :: x in p && y in p && p[x] == p[y] ==> x == y
  }

  /** Draining one responder first does not change what the drain comes to. */
  lemma DrainStep(w: Worker, id: RequestId)
    requires RespondersDistinct(w.pending) && id in w.pending
    ensures Drain(Send(w.(pending := w.pending - {id}), w.pending[id], IoFailed(ExitKind(w)))) == Drain(w)
  {
    var rest := w.(pending := w.pending - {id});
    var w' := Send(rest, w.pending[id], IoFailed(ExitKind(w)));
    forall v | v in w.pending.Values && v != w.pending[id] ensures v in rest.pending.Values {
      var x :| x in w.pending && w.pending[x] == v;
      assert x in rest.pending;
    }
    assert w.pending.Values == rest.pending.Values + {w.pending[id]};
    assert w.pending[id] !in rest.pending.Values;
    assert Drain(w').inbox.Keys == Drain(w).inbox.Keys;
    forall i | i in Drain(w).inbox ensures Drain(w').inbox[i] == Drain(w).inbox[i] {
      assert Sent(w', i) == if i == w.pending[id] then Sent(w, i) + [IoFailed(ExitKind(w))] else Sent(w, i);
    }
    assert Drain(w').inbox == Drain(w).inbox;
  }

  lemma DrainNothing(w: Worker)
    requires w.pending == map[]
    ensures Drain(w) == w
  {
    assert w.pending.Values == {};
    forall i | i in w.inbox ensures Drain(w).inbox[i] == w.inbox[i] {
      assert w.inbox[i] + [] == w.inbox[i];
    }
    assert Drain(w).inbox == w.inbox;
  }

  /** No two ids wait on the same responder, also at the turn that stops the worker. */
  lemma RespondersDiffer(inputs: seq<Input>, e: nat)
    requires e < |inputs| && Run(inputs, e).running && !Handle(Run(inputs, e), e, inputs[e]).running
    ensures var p := Handle(Run(inputs, e), e, inputs[e]).pending;
            RespondersDistinct(p)
  {
    var w := Run(inputs, e);
    RunningHasNoExit(inputs, e);
    StopKeepsPending(w, e, inputs[e]);
    forall x, y | x in w.pending && y in w.pending && w.pending[x] == w.pending[y] ensures x == y {
      HeldHasId(inputs, e, x);
      HeldHasId(inputs, e, y);
    }
  }
}
