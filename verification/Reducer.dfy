/** The analytics reducer: facts that arrive in any order, and the events they add up to. */
module Reducer {
  import opened Common
  import opened Rpc

  datatype ConnectionMetadata = ConnectionMetadata(
    productClientId: string, clientName: string, clientVersion: string, runtime: string)

  datatype InitializationMode = New | Forked | Resumed

  datatype ThreadOrigin = ThreadOrigin(source: Option<string>, subagentSource: Option<string>, parent: Option<string>)

  datatype ThreadMetadata = ThreadMetadata(origin: ThreadOrigin, mode: InitializationMode)

  datatype UserInput = Text | Image | LocalImage | OtherInput

  datatype Pending =
    | PendingStart(thread: string, images: nat)
    | PendingSteer(thread: string, expectedTurn: string, images: nat, createdAt: nat)

  datatype TurnStatus = Completed | Failed | Interrupted | InProgress

  datatype CompletedTurn = CompletedTurn(
    status: Option<TurnStatus>, error: Option<string>, completedAt: nat, durationMs: Option<nat>)

  datatype ResolvedConfig = ResolvedConfig(thread: string, images: nat, model: string, settings: string)

  datatype TurnState = TurnState(
    connection: Option<nat>, thread: Option<string>, images: Option<nat>, config: Option<ResolvedConfig>,
    startedAt: Option<nat>, usage: Option<nat>, completed: Option<CompletedTurn>, steerCount: nat)

  const NEW_TURN := TurnState(None, None, None, None, None, None, None, 0)

  datatype ClientRequest =
    | TurnStartRequest(thread: string, input: seq<UserInput>)
    | TurnSteerRequest(thread: string, expectedTurn: string, input: seq<UserInput>)
    | OtherRequest

  datatype ClientResponse =
    | ThreadStart(thread: string, origin: ThreadOrigin)
    | ThreadResume(thread: string, origin: ThreadOrigin)
    | ThreadFork(thread: string, origin: ThreadOrigin)
    | TurnStartResponse(requestId: RequestId, turn: string)
    | TurnSteerResponse(requestId: RequestId, turn: string)
    | OtherResponse

  datatype Fact =
    | Initialize(connection: nat, metadata: ConnectionMetadata)
    | Request(connection: nat, requestId: RequestId, request: ClientRequest, now: nat)
    | Response(connection: nat, response: ClientResponse)
    | ErrorResponse(connection: nat, requestId: RequestId, reason: Option<string>)
    | TurnStarted(turn: string, startedAt: Option<int>)
    | TurnCompleted(turn: string, status: TurnStatus, error: Option<string>,
                    completedAt: Option<int>, durationMs: Option<int>)
    | OtherNotification
    | SubAgentThreadStarted(thread: string)
    | Compaction(thread: string, turn: string)
    | GuardianReview(thread: string, turn: string)
    | TurnResolvedConfig(turn: string, config: ResolvedConfig)
    | TurnTokenUsage(turn: string, thread: string, usage: nat)
    | Untracked(count: nat)

  datatype Event =
    | ThreadInitialized(thread: string, client: ConnectionMetadata, metadata: ThreadMetadata)
    | SubAgentInitialized(thread: string)
    | TurnEvent(turn: string, thread: string, client: ConnectionMetadata, metadata: ThreadMetadata, images: nat,
                config: ResolvedConfig, completed: CompletedTurn, startedAt: Option<nat>, usage: Option<nat>,
                steerCount: nat)
    | SteerEvent(thread: string, expectedTurn: string, acceptedTurn: Option<string>, client: ConnectionMetadata,
                 metadata: ThreadMetadata, images: nat, reason: Option<string>, createdAt: nat)
    | CompactionEvent(thread: string, turn: string, client: ConnectionMetadata, metadata: ThreadMetadata)
    | GuardianEvent(thread: string, turn: string, client: ConnectionMetadata)
    | UntrackedEvent

  type Key = (nat, RequestId)

  datatype State = State(
    requests: map<Key, Pending>, turns: map<string, TurnState>, connections: map<nat, ConnectionMetadata>,
    threadConnections: map<string, nat>, threadMetadata: map<string, ThreadMetadata>)

  const EMPTY := State(map[], map[], map[], map[], map[])

  datatype Step = Step(state: State, events: seq<Event>)

  // ---- Field conversions ----

  function NumInputImages(input: seq<UserInput>): nat {
    if input == [] then 0
    else (if input[0].Image? || input[0].LocalImage? then 1 else 0) + NumInputImages(input[1..])
  }

  /** The places of a request's input that hold an image. */
  ghost function ImagePlaces(input: seq<UserInput>): set<nat> {
    set i: nat | i < |input| && (input[i] == Image || input[i] == LocalImage)
  }

  lemma {:induction false} NumInputImagesAppend(input: seq<UserInput>, x: UserInput)
    ensures NumInputImages(input + [x]) == NumInputImages(input) + if x == Image || x == LocalImage then 1 else 0
  {
    if input == [] {
    } else {
      assert (input + [x])[1..] == input[1..] + [x];
      NumInputImagesAppend(input[1..], x);
    }
  }

  /** The image count is the number of places that hold one. */
  lemma {:induction false} NumInputImagesCounts(input: seq<UserInput>)
    ensures NumInputImages(input) == |ImagePlaces(input)|
  {
    if input == [] {
      assert ImagePlaces(input) == {};
    } else {
      var n := |input| - 1;
      assert input == input[..n] + [input[n]];
      NumInputImagesAppend(input[..n], input[n]);
      NumInputImagesCounts(input[..n]);
      var last: set<nat> := if input[n] == Image || input[n] == LocalImage then {n} else {};
      assert ImagePlaces(input) == ImagePlaces(input[..n]) + last;
    }
  }

  /** `u64::try_from(value).ok()` under an option. */
  function Unsigned(value: Option<int>): Option<nat> {
    if value.Some? && value.value >= 0 then Some(value.value) else None
  }

  function CompletedOf(f: Fact): CompletedTurn
    requires f.TurnCompleted?
  {
    var at := Unsigned(f.completedAt);
    CompletedTurn(if f.status.InProgress? then None else Some(f.status), f.error,
                  if at.Some? then at.value else 0, Unsigned(f.durationMs))
  }

  function PendingOf(f: Fact): Pending
    requires f.Request? && !f.request.OtherRequest?
  {
    match f.request
    case TurnStartRequest(thread, input) => PendingStart(thread, NumInputImages(input))
    case TurnSteerRequest(thread, expected, input) => PendingSteer(thread, expected, NumInputImages(input), f.now)
  }

  // ---- What one fact does ----

  /** The request key that a response or error consumes. */
  function ConsumedKey(f: Fact): Option<Key> {
    match f
    case Response(c, TurnStartResponse(r, _)) => Some((c, r))
    case Response(c, TurnSteerResponse(r, _)) => Some((c, r))
    case ErrorResponse(c, r, _) => Some((c, r))
    case _ => None
  }

  predicate IsLifecycle(f: Fact) {
    f.Response? && (f.response.ThreadStart? || f.response.ThreadResume? || f.response.ThreadFork?)
  }

  function LifecycleMetadata(f: Fact): ThreadMetadata
    requires IsLifecycle(f)
  {
    ThreadMetadata(f.response.origin,
                   if f.response.ThreadStart? then New else if f.response.ThreadResume? then Resumed else Forked)
  }

  /** The maps other than `turns`. */
  function Bookkeeping(s: State, f: Fact): State {
    if f.Initialize? then s.(connections := s.connections[f.connection := f.metadata])
    else if f.Request? && !f.request.OtherRequest? then
      s.(requests := s.requests[(f.connection, f.requestId) := PendingOf(f)])
    else if ConsumedKey(f).Some? then s.(requests := s.requests - {ConsumedKey(f).value})
    else if IsLifecycle(f) && f.connection in s.connections then
      s.(threadConnections := s.threadConnections[f.response.thread := f.connection],
         threadMetadata := s.threadMetadata[f.response.thread := LifecycleMetadata(f)])
    else s
  }

  function Entry(s: State, turn: string): TurnState {
    if turn in s.turns then s.turns[turn] else NEW_TURN
  }

  predicate AcceptsStart(s: State, f: Fact) {
    && f.Response? && f.response.TurnStartResponse?
    && (f.connection, f.response.requestId) in s.requests
    && s.requests[(f.connection, f.response.requestId)].PendingStart?
  }

  predicate AcceptsSteer(s: State, f: Fact) {
    && f.Response? && f.response.TurnSteerResponse?
    && (f.connection, f.response.requestId) in s.requests
    && s.requests[(f.connection, f.response.requestId)].PendingSteer?
  }

  predicate RejectsSteer(s: State, f: Fact) {
    && f.ErrorResponse? && (f.connection, f.requestId) in s.requests
    && s.requests[(f.connection, f.requestId)].PendingSteer?
  }

  datatype TurnWrite = TurnWrite(turn: string, entry: TurnState, settles: bool)

  /** The one turn entry a fact writes, and whether it then tries to emit that turn's event. */
  function Write(s: State, f: Fact): Option<TurnWrite> {
    if AcceptsStart(s, f) then
      var p, u := s.requests[(f.connection, f.response.requestId)], f.response.turn;
      Some(TurnWrite(u, Entry(s, u).(connection := Some(f.connection), thread := Some(p.thread),
                                     images := Some(p.images)), true))
    else if AcceptsSteer(s, f) && f.response.turn in s.turns then
      var u := f.response.turn;
      Some(TurnWrite(u, s.turns[u].(steerCount := s.turns[u].steerCount + 1), false))
    else
      match f
      case TurnStarted(u, at) => Some(TurnWrite(u, Entry(s, u).(startedAt := Unsigned(at)), false))
      case TurnCompleted(u, _, _, _, _) => Some(TurnWrite(u, Entry(s, u).(completed := Some(CompletedOf(f))), true))
      case TurnResolvedConfig(u, config) =>
        Some(TurnWrite(u, Entry(s, u).(thread := Some(config.thread), images := Some(config.images),
                                       config := Some(config)), true))
      case TurnTokenUsage(u, thread, usage) =>
        Some(TurnWrite(u, Entry(s, u).(thread := Some(thread), usage := Some(usage)), true))
      case _ => None
  }

  predicate Populated(t: TurnState) {
    t.thread.Some? && t.images.Some? && t.config.Some? && t.completed.Some?
  }

  /** Everything a turn event needs is there. */
  predicate Ready(s: State, turn: string) {
    && turn in s.turns && Populated(s.turns[turn])
    && s.turns[turn].connection.Some? && s.turns[turn].connection.value in s.connections
    && s.turns[turn].thread.value in s.threadMetadata
  }

  function TurnEventOf(s: State, turn: string): Event
    requires Ready(s, turn)
  {
    var t := s.turns[turn];
    TurnEvent(turn, t.thread.value, s.connections[t.connection.value], s.threadMetadata[t.thread.value],
              t.images.value, t.config.value, t.completed.value, t.startedAt, t.usage, t.steerCount)
  }

  /** Emits a ready turn's event and forgets the turn. */
  function Settle(s: State, turn: string): Step {
    if Ready(s, turn) then Step(s.(turns := s.turns - {turn}), [TurnEventOf(s, turn)]) else Step(s, [])
  }

  function SteerEvents(s: State, connection: nat, p: Pending, accepted: Option<string>, reason: Option<string>)
    : seq<Event>
    requires p.PendingSteer?
  {
    if connection in s.connections && p.thread in s.threadMetadata then
      [SteerEvent(p.thread, p.expectedTurn, accepted, s.connections[connection], s.threadMetadata[p.thread],
                  p.images, reason, p.createdAt)]
    else []
  }

  /** The events other than turn events. */
  function OtherEvents(s: State, f: Fact): seq<Event> {
    if AcceptsSteer(s, f) then
      SteerEvents(s, f.connection, s.requests[(f.connection, f.response.requestId)], Some(f.response.turn), None)
    else if RejectsSteer(s, f) then
      SteerEvents(s, f.connection, s.requests[(f.connection, f.requestId)], None, f.reason)
    else if IsLifecycle(f) && f.connection in s.connections then
      [ThreadInitialized(f.response.thread, s.connections[f.connection], LifecycleMetadata(f))]
    else
      match f
      case SubAgentThreadStarted(thread) => [SubAgentInitialized(thread)]
      case Compaction(thread, turn) =>
        if thread in s.threadConnections && s.threadConnections[thread] in s.connections && thread in s.threadMetadata
        then [CompactionEvent(thread, turn, s.connections[s.threadConnections[thread]], s.threadMetadata[thread])]
        else []
      case GuardianReview(thread, turn) =>
        if thread in s.threadConnections && s.threadConnections[thread] in s.connections
        then [GuardianEvent(thread, turn, s.connections[s.threadConnections[thread]])]
        else []
      case Untracked(count) => seq(count, _ => UntrackedEvent)
      case _ => []
  }

  function Written(s: State, w: TurnWrite): State {
    s.(turns := s.turns[w.turn := w.entry])
  }

  /** One fact: bookkeeping, at most one turn entry written, and the events that follow. */
  function Ingest(s: State, f: Fact): Step {
    var base := Bookkeeping(s, f);
    match Write(s, f)
    case None => Step(base, OtherEvents(s, f))
    case Some(w) =>
      if w.settles then Settle(Written(base, w), w.turn) else Step(Written(base, w), OtherEvents(s, f))
  }

  // ---- Runs ----

  /** The state after the first `n` facts of a run that starts empty. */
  function After(facts: seq<Fact>, n: nat): State
    requires n <= |facts|
  {
    if n == 0 then EMPTY else Ingest(After(facts, n - 1), facts[n - 1]).state
  }

  /** The events that the `i`-th fact emits. */
  function Out(facts: seq<Fact>, i: nat): seq<Event>
    requires i < |facts|
  {
    Ingest(After(facts, i), facts[i]).events
  }
}
