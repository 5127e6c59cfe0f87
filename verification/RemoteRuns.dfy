/** Safety of every run of the remote worker: one reply per command, events in wire order. */
module RemoteRuns {
  import opened Common
  import opened Rpc
  import opened Remote

  // ---- Reference: what the inputs alone say ----

  predicate Requests(input: Input, id: RequestId) {
    input.Take? && input.command.Request? && input.command.id == id
  }

  predicate IsAnswer(input: Input) {
    && input.Receive? && input.message.Text? && input.message.parsed.Some?
    && (input.message.parsed.value.RpcResponse? || input.message.parsed.value.RpcError?)
  }

  predicate Answers(input: Input, id: RequestId) {
    IsAnswer(input) && input.message.parsed.value.id == id
  }

  function AnswerReply(input: Input): Reply
    requires IsAnswer(input)
  {
    match input.message.parsed.value
    case RpcResponse(_, result) => Answered(result)
    case RpcError(_, error) => Refused(error)
  }

  /** Input `k` requested `id` and nothing has answered `id` since. */
  ghost predicate Unanswered(inputs: seq<Input>, n: nat, id: RequestId, k: int)
    requires n <= |inputs|
  {
    && 0 <= k < n && Requests(inputs[k], id)
    && forall l :: k < l < n ==> !Answers(inputs[l], id)
  }

  /** An earlier request with the same id is still unanswered. */
  ghost predicate Duplicate(inputs: seq<Input>, i: nat)
    requires i < |inputs| && inputs[i].Take? && inputs[i].command.Request?
  {
    exists k :: Unanswered(inputs, i, inputs[i].command.id, k)
  }

  /** The first of inputs `i + 1, ..., n - 1` that answers `id`. */
  ghost function FirstAnswer(inputs: seq<Input>, i: nat, n: nat, id: RequestId): (r: Option<nat>)
    requires i < n <= |inputs|
    ensures r.None? <==> forall l :: i < l < n ==> !Answers(inputs[l], id)
    ensures r.Some? ==> i < r.value < n && Answers(inputs[r.value], id)
    ensures r.Some? ==> forall l :: i < l < r.value ==> !Answers(inputs[l], id)
  {
    if n == i + 1 then None
    else
      var r := FirstAnswer(inputs, i, n - 1, id);
      if r.Some? then r else if Answers(inputs[n - 1], id) then Some(n - 1) else None
  }

  // ---- The pending map ----

  /** The earliest unanswered request with this id. */
  ghost predicate Holds(inputs: seq<Input>, n: nat, id: RequestId, j: int)
    requires n <= |inputs|
  {
    Unanswered(inputs, n, id, j) && forall k :: Unanswered(inputs, n, id, k) ==> j <= k
  }

  /** The map holds the earliest unanswered request with this id, and nothing when there is none. */
  ghost predicate AgreesOn(inputs: seq<Input>, n: nat, pending: map<RequestId, nat>, id: RequestId)
    requires n <= |inputs|
  {
    && (id in pending ==> Holds(inputs, n, id, pending[id]))
    && (forall k :: Unanswered(inputs, n, id, k) ==> id in pending)
  }

  /** How one input changes what the map holds for one id. */
  predicate Moves(pending: map<RequestId, nat>, p: map<RequestId, nat>, n: nat, input: Input, id: RequestId) {
    if Requests(input, id) && id !in pending then id in p && p[id] == n
    else if Answers(input, id) then id !in p
    else (id in p <==> id in pending) && (id in p ==> p[id] == pending[id])
  }

  lemma PendingStep(w: Worker, n: nat, input: Input, id: RequestId)
    requires w.running && Step(w, n, input).running
    ensures Moves(w.pending, Step(w, n, input).pending, n, input, id)
  {
    match input
    case Take(_, _) => CommandMoves(w, n, input, id);
    case Receive(_, _) => MessageMoves(w, n, input, id);
    case _ =>
  }

  lemma CommandMoves(w: Worker, n: nat, input: Input, id: RequestId)
    requires input.Take? && HandleCommand(w, n, input.command, input.ok).running
    ensures Moves(w.pending, HandleCommand(w, n, input.command, input.ok).pending, n, input, id)
  {
  }

  lemma MessageMoves(w: Worker, n: nat, input: Input, id: RequestId)
    requires input.Receive? && HandleMessage(w, input.message, input.ok).running
    ensures Moves(w.pending, HandleMessage(w, input.message, input.ok).pending, n, input, id)
  {
  }

  lemma AgreesAfterMove(inputs: seq<Input>, n: nat, pending: map<RequestId, nat>, p: map<RequestId, nat>, id: RequestId)
    requires n < |inputs| && AgreesOn(inputs, n, pending, id) && Moves(pending, p, n, inputs[n], id)
    ensures AgreesOn(inputs, n + 1, p, id)
  {
    var m := n + 1;
    HoldsStep(inputs, n, id);
    if id in p {
      assert Holds(inputs, m, id, p[id]);
    }
    forall k | Unanswered(inputs, m, id, k) ensures id in p {
      UnansweredStep(inputs, n, id, k);
    }
  }

  lemma UnansweredStep(inputs: seq<Input>, n: nat, id: RequestId, k: int)
    requires n < |inputs|
    ensures Unanswered(inputs, n + 1, id, k) <==>
            (k == n && Requests(inputs[n], id)) || (Unanswered(inputs, n, id, k) && !Answers(inputs[n], id))
  {
  }

  lemma RunningBefore(inputs: seq<Input>, m: nat, n: nat)
    requires m < n == m + 1 <= |inputs| && Run(inputs, n).running
    ensures Run(inputs, m).running && Run(inputs, n) == Step(Run(inputs, m), m, inputs[m])
  {
  }

  lemma AgreesStep(inputs: seq<Input>, m: nat, n: nat, id: RequestId)
    requires m < n == m + 1 <= |inputs| && Run(inputs, n).running && AgreesOn(inputs, m, Run(inputs, m).pending, id)
    ensures AgreesOn(inputs, n, Run(inputs, n).pending, id)
  {
    RunningBefore(inputs, m, n);
    PendingStep(Run(inputs, m), m, inputs[m], id);
    AgreesAfterMove(inputs, m, Run(inputs, m).pending, Run(inputs, n).pending, id);
  }

  lemma {:induction false} PendingFollowsInputs(inputs: seq<Input>, n: nat, id: RequestId)
    requires n <= |inputs| && Run(inputs, n).running
    ensures AgreesOn(inputs, n, Run(inputs, n).pending, id)
  {
    if n == 0 {
    } else {
      var m := n - 1;
      RunningBefore(inputs, m, n);
      PendingFollowsInputs(inputs, m, id);
      AgreesStep(inputs, m, n, id);
    }
  }

  lemma HoldsStep(inputs: seq<Input>, n: nat, id: RequestId)
    requires n < |inputs|
    ensures forall j :: Holds(inputs, n, id, j) && !Answers(inputs[n], id) ==> Holds(inputs, n + 1, id, j)
    ensures Requests(inputs[n], id) && (forall k :: !Unanswered(inputs, n, id, k)) ==> Holds(inputs, n + 1, id, n)
  {
    var m := n + 1;
    forall k
      ensures Unanswered(inputs, m, id, k) <==>
              (k == n && Requests(inputs[n], id)) || (Unanswered(inputs, n, id, k) && !Answers(inputs[n], id))
    {
      UnansweredStep(inputs, n, id, k);
    }
    assert Requests(inputs[n], id) ==> Unanswered(inputs, m, id, n);
    forall j | Holds(inputs, n, id, j) && !Answers(inputs[n], id) ensures Holds(inputs, m, id, j) {
      assert Unanswered(inputs, m, id, j);
    }
  }

  /** So the responder held for an id is the one request that is neither answered nor a duplicate. */
  lemma HoldsIff(inputs: seq<Input>, n: nat, id: RequestId, i: nat)
    requires i < n <= |inputs| && Requests(inputs[i], id)
    ensures Holds(inputs, n, id, i) <==> Unanswered(inputs, n, id, i) && !Duplicate(inputs, i)
  {
    forall k | 0 <= k < i && Unanswered(inputs, n, id, i)
      ensures Unanswered(inputs, n, id, k) <==> Unanswered(inputs, i, id, k)
    {
    }
  }

  lemma HeldResponder(inputs: seq<Input>, n: nat, id: RequestId, i: nat)
    requires n <= |inputs| && i < n && Run(inputs, n).running && Requests(inputs[i], id)
    ensures id in Run(inputs, n).pending && Run(inputs, n).pending[id] == i <==>
            Unanswered(inputs, n, id, i) && !Duplicate(inputs, i)
  {
    PendingFollowsInputs(inputs, n, id);
    HoldsIff(inputs, n, id, i);
  }

  // ---- Replies ----

  /** What the responder of input `i` has been sent after `n` inputs, as long as the worker runs. */
  ghost function RepliesSoFar(inputs: seq<Input>, n: nat, i: nat): seq<Reply>
    requires n <= |inputs|
  {
    if i >= n || !inputs[i].Take? then []
    else if !inputs[i].command.Request? then [if inputs[i].ok then Done else IoFailed(Other)]
    else if Duplicate(inputs, i) then [IoFailed(InvalidInput)]
    else
      match FirstAnswer(inputs, i, n, inputs[i].command.id)
      case Some(l) => [AnswerReply(inputs[l])]
      case None => []
  }

  /** What one turn of a running loop sends to responder `i`. */
  function SentBy(w: Worker, n: nat, input: Input, i: nat): seq<Reply> {
    if input.Take? && i == n then
      if !input.command.Request? then [if input.ok then Done else IoFailed(Other)]
      else if input.command.id in w.pending then [IoFailed(InvalidInput)]
      else if !input.ok then [IoFailed(Other)]
      else []
    else if IsAnswer(input) && var id := input.message.parsed.value.id; id in w.pending && w.pending[id] == i then
      [AnswerReply(input)]
    else []
  }

  lemma CommandSends(w: Worker, n: nat, input: Input, i: nat)
    requires w.running && input.Take?
    ensures Sent(HandleCommand(w, n, input.command, input.ok), i) == Sent(w, i) + SentBy(w, n, input, i)
  {
    if input.command.Request? {
      RequestSends(w, n, input, i);
    } else {
      SendAdds(w, n, Outcome(input.ok), i);
    }
  }

  lemma SendAdds(w: Worker, r: nat, reply: Reply, i: nat)
    ensures Sent(Send(w, r, reply), i) == Sent(w, i) + if i == r then [reply] else []
  {
  }

  lemma RequestSends(w: Worker, n: nat, input: Input, i: nat)
    requires w.running && input.Take? && input.command.Request?
    ensures Sent(HandleCommand(w, n, input.command, input.ok), i) == Sent(w, i) + SentBy(w, n, input, i)
  {
    if input.command.id in w.pending {
      SendAdds(w, n, IoFailed(InvalidInput), i);
    } else if !input.ok {
      SendAdds(w, n, IoFailed(Other), i);
    }
  }

  lemma MessageSends(w: Worker, n: nat, input: Input, i: nat)
    requires w.running && input.Receive?
    ensures Sent(HandleMessage(w, input.message, input.ok), i) == Sent(w, i) + SentBy(w, n, input, i)
  {
    assert Sent(w, i) + [] == Sent(w, i);
  }

  lemma HandleSends(w: Worker, n: nat, input: Input, i: nat)
    requires w.running
    ensures Sent(Handle(w, n, input), i) == Sent(w, i) + SentBy(w, n, input, i)
  {
    match input
    case Take(_, _) => CommandSends(w, n, input, i);
    case Receive(_, _) => MessageSends(w, n, input, i);
    case _ => assert Sent(w, i) + [] == Sent(w, i);
  }

  lemma DuplicateIffPending(inputs: seq<Input>, n: nat)
    requires n < |inputs| && Run(inputs, n).running && inputs[n].Take? && inputs[n].command.Request?
    ensures Duplicate(inputs, n) <==> inputs[n].command.id in Run(inputs, n).pending
  {
    PendingFollowsInputs(inputs, n, inputs[n].command.id);
  }

  /** Pending responders belong to requests with that very id. */
  lemma HeldHasId(inputs: seq<Input>, n: nat, id: RequestId)
    requires n <= |inputs| && Run(inputs, n).running && id in Run(inputs, n).pending
    ensures Run(inputs, n).pending[id] < n && Requests(inputs[Run(inputs, n).pending[id]], id)
  {
    PendingFollowsInputs(inputs, n, id);
  }

  lemma RepliesStep(inputs: seq<Input>, n: nat, i: nat)
    requires n < |inputs| && Run(inputs, n).running && Handle(Run(inputs, n), n, inputs[n]).running
    ensures RepliesSoFar(inputs, n + 1, i) == RepliesSoFar(inputs, n, i) + SentBy(Run(inputs, n), n, inputs[n], i)
  {
    var w, input := Run(inputs, n), inputs[n];
    if IsAnswer(input) && input.message.parsed.value.id in w.pending {
      HeldHasId(inputs, n, input.message.parsed.value.id);
    }
    if i == n && input.Take? && input.command.Request? {
      DuplicateIffPending(inputs, n);
    } else if i < n && inputs[i].Take? && inputs[i].command.Request? {
      HeldResponder(inputs, n, inputs[i].command.id, i);
    }
  }

  lemma {:induction false} InboxFollowsInputs(inputs: seq<Input>, n: nat, i: nat)
    requires n <= |inputs| && Run(inputs, n).running
    ensures Sent(Run(inputs, n), i) == RepliesSoFar(inputs, n, i)
  {
    if n == 0 {
    } else {
      InboxFollowsInputs(inputs, n - 1, i);
      HandleSends(Run(inputs, n - 1), n - 1, inputs[n - 1], i);
      RepliesStep(inputs, n - 1, i);
    }
  }

  /** The worker is running after `e` inputs and has stopped after one more. */
  ghost predicate StopsAt(inputs: seq<Input>, e: nat) {
    e < |inputs| && Run(inputs, e).running && !Run(inputs, e + 1).running
  }

  /** The error that the exit drain reports, by the input that stopped the worker. */
  function DrainKind(input: Input): ErrorKind {
    match input
    case Receive(Text(None), _) => InvalidData
    case Receive(Close(_), _) => ConnectionAborted
    case Receive(TransportError(_), _) => InvalidData
    case Receive(EndOfStream, _) => UnexpectedEof
    case _ => BrokenPipe
  }

  /** The one reply each command gets: duplicate error, write failure, first later answer, or the exit drain. */
  ghost function FinalReply(inputs: seq<Input>, e: nat, i: nat): Reply
    requires i <= e < |inputs| && inputs[i].Take?
  {
    if !inputs[i].command.Request? then (if inputs[i].ok then Done else IoFailed(Other))
    else if Duplicate(inputs, i) then IoFailed(InvalidInput)
    else if i == e then IoFailed(Other)
    else
      match FirstAnswer(inputs, i, e, inputs[i].command.id)
      case Some(l) => AnswerReply(inputs[l])
      case None => IoFailed(DrainKind(inputs[e]))
  }

  lemma NoExitWhileRunning(w: Worker, n: nat, input: Input)
    requires w.running && w.exit.None? && Step(w, n, input).running
    ensures Step(w, n, input).exit.None?
  {
  }

  lemma {:induction false} RunningHasNoExit(inputs: seq<Input>, n: nat)
    requires n <= |inputs| && Run(inputs, n).running
    ensures Run(inputs, n).exit.None?
  {
    if n == 0 {
    } else {
      RunningHasNoExit(inputs, n - 1);
      NoExitWhileRunning(Run(inputs, n - 1), n - 1, inputs[n - 1]);
    }
  }

  /** Stopping changes the pending map only by what was never accepted. */
  lemma StopKeepsPending(w: Worker, n: nat, input: Input)
    requires w.running && w.exit.None? && !Handle(w, n, input).running
    ensures Handle(w, n, input).pending == w.pending
    ensures ExitKind(Handle(w, n, input)) == DrainKind(input)
    ensures !IsAnswer(input)
    ensures input.Take? && input.command.Request? ==> input.command.id !in w.pending && !input.ok
  {
  }

  lemma DrainSends(w: Worker, i: nat)
    ensures Sent(Drain(w), i) == Sent(w, i) + (if i in w.pending.Values then [IoFailed(ExitKind(w))] else [])
  {
    assert forall s: seq<Reply> :: s + [] == s;
  }

  /** A responder is still pending exactly when its request is unanswered and not a duplicate. */
  lemma PendingResponders(inputs: seq<Input>, n: nat, i: nat)
    requires n <= |inputs| && Run(inputs, n).running
    ensures i in Run(inputs, n).pending.Values <==>
            && i < n && inputs[i].Take? && inputs[i].command.Request? && !Duplicate(inputs, i)
            && FirstAnswer(inputs, i, n, inputs[i].command.id).None?
  {
    var w := Run(inputs, n);
    if i in w.pending.Values {
      var id :| id in w.pending && w.pending[id] == i;
      HeldHasId(inputs, n, id);
      HeldResponder(inputs, n, id, i);
    }
    if i < n && inputs[i].Take? && inputs[i].command.Request? {
      HeldResponder(inputs, n, inputs[i].command.id, i);
    }
  }

  /** Every command taken from the queue has been sent exactly one reply when the worker exits. */
  lemma ExactlyOneReply(inputs: seq<Input>, e: nat, i: nat)
    requires StopsAt(inputs, e) && i <= e && inputs[i].Take?
    ensures Sent(Run(inputs, e + 1), i) == [FinalReply(inputs, e, i)]
  {
    var w := Run(inputs, e);
    var h := Handle(w, e, inputs[e]);
    RunningHasNoExit(inputs, e);
    StopKeepsPending(w, e, inputs[e]);
    InboxFollowsInputs(inputs, e, i);
    HandleSends(w, e, inputs[e], i);
    DrainSends(h, i);
    PendingResponders(inputs, e, i);
    if i == e && inputs[e].command.Request? {
      DuplicateIffPending(inputs, e);
    }
  }

  /** A stopped worker takes nothing more and answers nothing more. */
  lemma {:induction false} StoppedForGood(inputs: seq<Input>, e: nat, n: nat)
    requires StopsAt(inputs, e) && e < n <= |inputs|
    ensures Run(inputs, n) == Run(inputs, e + 1)
  {
    if n > e + 1 {
      StoppedForGood(inputs, e, n - 1);
    }
  }

  /** While the worker runs, every command but an open request has exactly one reply, and an open request none. */
  lemma AtMostOneReply(inputs: seq<Input>, n: nat, i: nat)
    requires n <= |inputs| && Run(inputs, n).running && i < n && inputs[i].Take?
    ensures |Sent(Run(inputs, n), i)| == if i in Run(inputs, n).pending.Values then 0 else 1
  {
    InboxFollowsInputs(inputs, n, i);
    PendingResponders(inputs, n, i);
  }

  /**
    From the turn that takes it on, and after the exit too, a command other than a request has been told exactly
    whether its write or close succeeded.
   */
  lemma {:induction false} CommandOutcome(inputs: seq<Input>, n: nat, i: nat)
    requires i < n <= |inputs| && Run(inputs, i).running && inputs[i].Take? && !inputs[i].command.Request?
    ensures Sent(Run(inputs, n), i) == [if inputs[i].ok then Done else IoFailed(Other)]
  {
    if Run(inputs, n).running {
      InboxFollowsInputs(inputs, n, i);
    } else if Run(inputs, n - 1).running {
      ExactlyOneReply(inputs, n - 1, i);
    } else {
      CommandOutcome(inputs, n - 1, i);
    }
  }

  /**
    A request is refused with an error to its own responder, and nothing else happens, exactly when it is a duplicate.
   */
  lemma DuplicateIsHarmless(inputs: seq<Input>, n: nat)
    requires n < |inputs| && Run(inputs, n).running && inputs[n].Take? && inputs[n].command.Request?
    ensures var w, w' := Run(inputs, n), Run(inputs, n + 1);
            Duplicate(inputs, n) <==> w' == w.(inbox := w.inbox[n := Sent(w, n) + [IoFailed(InvalidInput)]])
  {
    DuplicateIffPending(inputs, n);
    if !Duplicate(inputs, n) {
      HandleWrites(Run(inputs, n), n, inputs[n]);
    }
  }

  /** A response or error changes nothing exactly when no request with its id is waiting for an answer. */
  lemma UnmatchedAnswerIsInert(inputs: seq<Input>, n: nat)
    requires n < |inputs| && Run(inputs, n).running && IsAnswer(inputs[n])
    ensures Run(inputs, n + 1) == Run(inputs, n) <==>
            forall k :: !Unanswered(inputs, n, inputs[n].message.parsed.value.id, k)
  {
    var w, id := Run(inputs, n), inputs[n].message.parsed.value.id;
    PendingFollowsInputs(inputs, n, id);
    if id in w.pending {
      assert Unanswered(inputs, n, id, w.pending[id]);
      assert id !in Run(inputs, n + 1).pending;
    }
  }

  // ---- Events ----

  /** The event a server message stands for, if it decodes. */
  function EventOf(m: ServerMessage): seq<Event> {
    match m
    case Text(Some(RpcNotification(Some(notification)))) => [Notification(notification)]
    case Text(Some(RpcRequest(_, Some(request)))) => [ServerRequest(request)]
    case _ => []
  }

  /** The decodable notifications and recognised requests among the messages, in wire order. */
  function EventsOf(messages: seq<ServerMessage>): seq<Event> {
    if messages == [] then [] else EventsOf(messages[..|messages| - 1]) + EventOf(messages[|messages| - 1])
  }

  /** The server messages among the first `n` inputs. */
  function Received(inputs: seq<Input>, n: nat): seq<ServerMessage>
    requires n <= |inputs|
  {
    if n == 0 then []
    else Received(inputs, n - 1) + (if inputs[n - 1].Receive? then [inputs[n - 1].message] else [])
  }

  function InputEvents(input: Input): seq<Event> {
    if input.Receive? then EventOf(input.message) else []
  }

  lemma ReceivedStep(inputs: seq<Input>, n: nat)
    requires n < |inputs|
    ensures EventsOf(Received(inputs, n + 1)) == EventsOf(Received(inputs, n)) + InputEvents(inputs[n])
  {
    var ms := Received(inputs, n);
    if inputs[n].Receive? {
      assert (ms + [inputs[n].message])[..|ms|] == ms;
    } else {
      assert ms + [] == ms;
      assert EventsOf(ms) + [] == EventsOf(ms);
    }
  }

  /** Why the input that stops the worker disconnects it; a shutdown or a closed command queue does not. */
  function Causes(input: Input): seq<Event> {
    match input
    case Take(Shutdown, _) => []
    case Take(_, _) => [Disconnected(WriteFailed)]
    case CommandsClosed => []
    case Receive(Text(None), _) => [Disconnected(InvalidJson)]
    case Receive(Text(Some(_)), _) => [Disconnected(WriteFailed)]
    case Receive(Close(reason), _) => [Disconnected(ClosedByServer(reason))]
    case Receive(TransportError(error), _) => [Disconnected(TransportFailed(error))]
    case Receive(EndOfStream, _) => [Disconnected(Ended)]
    case _ => []
  }

  ghost predicate ConsumerStays(inputs: seq<Input>, n: nat)
    requires n <= |inputs|
  {
    forall i :: 0 <= i < n ==> !inputs[i].ConsumerDropped?
  }

  /** What ends a running worker; `duplicate` and `listening` are told by the inputs before. */
  predicate EndsIt(input: Input, duplicate: bool, listening: bool) {
    match input
    case Take(Shutdown, _) => true
    case Take(Request(_, _), ok) => !ok && !duplicate
    case Take(_, _) => false
    case CommandsClosed => true
    case ConsumerDropped => false
    case Receive(OtherFrame, _) => false
    case Receive(Text(Some(RpcRequest(_, None))), ok) => !ok
    case Receive(Text(Some(_)), _) => InputEvents(input) != [] && !listening
    case Receive(_, _) => true
  }

  lemma EndsStep(w: Worker, n: nat, input: Input)
    requires w.running
    ensures Handle(w, n, input).running <==>
            !EndsIt(input, input.Take? && input.command.Request? && input.command.id in w.pending, w.consumerAlive)
  {
  }

  lemma ConsumerStep(w: Worker, n: nat, input: Input)
    requires w.running
    ensures Step(w, n, input).consumerAlive <==> w.consumerAlive && !input.ConsumerDropped?
  {
  }

  lemma {:induction false} ConsumerFollowsInputs(inputs: seq<Input>, n: nat)
    requires n <= |inputs| && Run(inputs, n).running
    ensures Run(inputs, n).consumerAlive <==> ConsumerStays(inputs, n)
  {
    if n == 0 {
    } else {
      ConsumerFollowsInputs(inputs, n - 1);
      ConsumerStep(Run(inputs, n - 1), n - 1, inputs[n - 1]);
    }
  }

  /** The worker stops exactly at the first input that ends it. */
  lemma StopsIff(inputs: seq<Input>, n: nat)
    requires n < |inputs| && Run(inputs, n).running
    ensures StopsAt(inputs, n) <==>
            EndsIt(inputs[n], inputs[n].Take? && inputs[n].command.Request? && Duplicate(inputs, n),
                   ConsumerStays(inputs, n))
  {
    ConsumerFollowsInputs(inputs, n);
    if inputs[n].Take? && inputs[n].command.Request? {
      DuplicateIffPending(inputs, n);
    }
    EndsStep(Run(inputs, n), n, inputs[n]);
  }

  lemma DeliveredStep(w: Worker, n: nat, input: Input)
    requires w.running && w.consumerAlive && !input.ConsumerDropped?
    ensures var w' := Step(w, n, input);
            && w'.consumerAlive
            && w'.delivered == w.delivered + (if w'.running then InputEvents(input) else Causes(input))
            && (!w'.running ==> InputEvents(input) == [])
  {
    match input
    case Take(_, _) => CommandDelivers(w, n, input);
    case Receive(_, _) => MessageDelivers(w, input);
    case CommandsClosed => assert w.delivered + [] == w.delivered;
  }

  lemma CommandDelivers(w: Worker, n: nat, input: Input)
    requires w.running && w.consumerAlive && input.Take?
    ensures var w' := HandleCommand(w, n, input.command, input.ok);
            w'.consumerAlive && w'.delivered == w.delivered + (if w'.running then [] else Causes(input))
  {
    assert w.delivered + [] == w.delivered;
  }

  lemma MessageDelivers(w: Worker, input: Input)
    requires w.running && w.consumerAlive && input.Receive?
    ensures var w' := HandleMessage(w, input.message, input.ok);
            && w'.consumerAlive
            && w'.delivered == w.delivered + (if w'.running then InputEvents(input) else Causes(input))
            && (!w'.running ==> InputEvents(input) == [])
  {
    assert w.delivered + [] == w.delivered;
  }

  /** While worker and consumer are alive the consumer has been sent exactly the decodable messages, in order. */
  lemma {:induction false} EventsInWireOrder(inputs: seq<Input>, n: nat)
    requires n <= |inputs| && Run(inputs, n).running && ConsumerStays(inputs, n)
    ensures Run(inputs, n).consumerAlive
    ensures Run(inputs, n).delivered == EventsOf(Received(inputs, n))
  {
    if n == 0 {
    } else {
      assert Run(inputs, n - 1).running && ConsumerStays(inputs, n - 1);
      EventsInWireOrder(inputs, n - 1);
      DeliveredStep(Run(inputs, n - 1), n - 1, inputs[n - 1]);
      ReceivedStep(inputs, n - 1);
    }
  }

  /** On exit at most one `Disconnected` follows them, and nothing after it. */
  lemma DisconnectedIsLast(inputs: seq<Input>, e: nat)
    requires StopsAt(inputs, e) && ConsumerStays(inputs, e + 1)
    ensures Run(inputs, e + 1).delivered == EventsOf(Received(inputs, e + 1)) + Causes(inputs[e])
    ensures |Causes(inputs[e])| == if Run(inputs, e + 1).exit.Some? then 1 else 0
  {
    EventsInWireOrder(inputs, e);
    DeliveredStep(Run(inputs, e), e, inputs[e]);
    ReceivedStep(inputs, e);
    RunningHasNoExit(inputs, e);
    ExitIffCause(Run(inputs, e), e, inputs[e]);
    assert EventsOf(Received(inputs, e)) + [] == EventsOf(Received(inputs, e));
  }

  lemma ExitIffCause(w: Worker, n: nat, input: Input)
    requires w.running && w.exit.None? && w.consumerAlive && !Step(w, n, input).running
    ensures |Causes(input)| == if Step(w, n, input).exit.Some? then 1 else 0
  {
  }

  lemma {:induction false} NoDisconnectedBefore(messages: seq<ServerMessage>)
    ensures forall e :: e in EventsOf(messages) ==> !e.Disconnected?
  {
    if messages == [] {
    } else {
      NoDisconnectedBefore(messages[..|messages| - 1]);
    }
  }

  // ---- Writes ----

  /** What handling an input tries to write: in particular one -32601 error with its own id per unknown request. */
  function WireOf(input: Input, duplicate: bool): seq<Wire> {
    match input
    case Take(Request(id, payload), _) => if duplicate then [] else [WireRequest(id, payload)]
    case Take(Notify(payload), _) => [WireNotification(payload)]
    case Take(Resolve(id, result), _) => [WireResponse(id, result)]
    case Take(Reject(id, code), _) => [WireError(id, code)]
    case Receive(Text(Some(RpcRequest(id, None))), _) => [WireError(id, -32601)]
    case _ => []
  }

  ghost function WriteOf(inputs: seq<Input>, i: nat): seq<Wire>
    requires i < |inputs|
  {
    WireOf(inputs[i], inputs[i].Take? && inputs[i].command.Request? && Duplicate(inputs, i))
  }

  ghost function WritesOf(inputs: seq<Input>, n: nat): seq<Wire>
    requires n <= |inputs|
  {
    if n == 0 then [] else WritesOf(inputs, n - 1) + WriteOf(inputs, n - 1)
  }

  /** The same, told by the pending map. */
  function AttemptOf(w: Worker, input: Input): seq<Wire> {
    WireOf(input, input.Take? && input.command.Request? && input.command.id in w.pending)
  }

  lemma HandleWrites(w: Worker, n: nat, input: Input)
    requires w.running
    ensures Step(w, n, input).written == w.written + AttemptOf(w, input)
  {
    assert w.written + [] == w.written;
  }

  lemma WriteStep(inputs: seq<Input>, n: nat)
    requires n < |inputs| && Run(inputs, n).running
    ensures Run(inputs, n + 1).written == Run(inputs, n).written + WriteOf(inputs, n)
  {
    HandleWrites(Run(inputs, n), n, inputs[n]);
    if inputs[n].Take? && inputs[n].command.Request? {
      DuplicateIffPending(inputs, n);
    }
  }

  /** Every write the worker attempts, up to and including the turn that stops it. */
  lemma {:induction false} WritesFollowInputs(inputs: seq<Input>, n: nat)
    requires n <= |inputs| && (n > 0 ==> Run(inputs, n - 1).running)
    ensures Run(inputs, n).written == WritesOf(inputs, n)
  {
    if n == 0 {
    } else {
      if n > 1 {
        assert Run(inputs, n - 2).running;
      }
      WritesFollowInputs(inputs, n - 1);
      WriteStep(inputs, n - 1);
    }
  }
}
