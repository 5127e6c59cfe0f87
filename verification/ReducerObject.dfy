/** The `AnalyticsReducer` object with its five maps, proved against the step function of `Reducer`. */
module ReducerObject {
  import opened Common
  import opened Rpc
  import opened Reducer

  class AnalyticsReducer {
    var requests: map<Key, Pending>
    var turns: map<string, TurnState>
    var connections: map<nat, ConnectionMetadata>
    var threadConnections: map<string, nat>
    var threadMetadata: map<string, ThreadMetadata>

    function Contents(): State
      reads this
    {
      State(requests, turns, connections, threadConnections, threadMetadata)
    }

    constructor ()
      ensures Contents() == EMPTY
    {
      requests, turns, connections, threadConnections, threadMetadata := map[], map[], map[], map[], map[];
    }

    /** The outcome of handling `input`, events appended to those already in `out`. */
    method IngestFact(input: Fact, out: seq<Event>) returns (out': seq<Event>)
      modifies this
      ensures Contents() == Ingest(old(Contents()), input).state
      ensures out' == out + Ingest(old(Contents()), input).events
    {
      out' := out;
      match input {
        case Initialize(c, metadata) =>
          connections := connections[c := metadata];
        case Request(c, r, request, now) =>
          IngestRequest(input);
        case Response(c, response) =>
          out' := IngestResponse(input, out);
        case ErrorResponse(c, r, reason) =>
          out' := IngestErrorResponse(input, out);
        case TurnStarted(turn, at) =>
          turns := turns[turn := Existing(turn).(startedAt := Unsigned(at))];
        case TurnCompleted(turn, _, _, _, _) =>
          turns := turns[turn := Existing(turn).(completed := Some(CompletedOf(input)))];
          out' := MaybeEmitTurnEvent(turn, out);
        case OtherNotification =>
        case SubAgentThreadStarted(thread) =>
          out' := out + [SubAgentInitialized(thread)];
        case Compaction(thread, turn) =>
          out' := IngestCompaction(thread, turn, out);
        case GuardianReview(thread, turn) =>
          out' := IngestGuardianReview(thread, turn, out);
        case TurnResolvedConfig(turn, config) =>
          turns := turns[turn := Existing(turn).(thread := Some(config.thread), images := Some(config.images),
                                                 config := Some(config))];
          out' := MaybeEmitTurnEvent(turn, out);
        case TurnTokenUsage(turn, thread, usage) =>
          turns := turns[turn := Existing(turn).(thread := Some(thread), usage := Some(usage))];
          out' := MaybeEmitTurnEvent(turn, out);
        case Untracked(count) =>
          out' := out + seq(count, _ => UntrackedEvent);
      }
    }

    /** `entry(turn).or_insert(..)`. */
    function Existing(turn: string): (t: TurnState)
      reads this
      ensures t == Entry(Contents(), turn)
    {
      if turn in turns then turns[turn] else NEW_TURN
    }

    method IngestRequest(input: Fact)
      requires input.Request?
      modifies this`requests
      ensures Contents() == Ingest(old(Contents()), input).state
      ensures Ingest(old(Contents()), input).events == []
      ensures requests ==
        match input.request
        case TurnStartRequest(thread, items) =>
          old(requests)[(input.connection, input.requestId) := PendingStart(thread, |ImagePlaces(items)|)]
        case TurnSteerRequest(thread, expected, items) =>
          old(requests)[(input.connection, input.requestId) :=
                          PendingSteer(thread, expected, |ImagePlaces(items)|, input.now)]
        case OtherRequest => old(requests)
    {
      match input.request {
        case TurnStartRequest(thread, items) =>
          NumInputImagesCounts(items);
          requests := requests[(input.connection, input.requestId) := PendingStart(thread, NumInputImages(items))];
        case TurnSteerRequest(thread, expected, items) =>
          NumInputImagesCounts(items);
          requests := requests[(input.connection, input.requestId) :=
                                 PendingSteer(thread, expected, NumInputImages(items), input.now)];
        case OtherRequest =>
      }
    }

    method IngestResponse(input: Fact, out: seq<Event>) returns (out': seq<Event>)
      requires input.Response?
      modifies this
      ensures Contents() == Ingest(old(Contents()), input).state
      ensures out' == out + Ingest(old(Contents()), input).events
    {
      out' := out;
      match input.response {
        case ThreadStart(thread, origin) =>
          out' := EmitThreadInitialized(input.connection, thread, ThreadMetadata(origin, New), out);
        case ThreadResume(thread, origin) =>
          out' := EmitThreadInitialized(input.connection, thread, ThreadMetadata(origin, Resumed), out);
        case ThreadFork(thread, origin) =>
          out' := EmitThreadInitialized(input.connection, thread, ThreadMetadata(origin, Forked), out);
        case TurnStartResponse(requestId, turn) =>
          var removed := TakeRequest((input.connection, requestId));
          if removed.Some? && removed.value.PendingStart? {
            turns := turns[turn := Existing(turn).(connection := Some(input.connection),
                                                   thread := Some(removed.value.thread),
                                                   images := Some(removed.value.images))];
            out' := MaybeEmitTurnEvent(turn, out);
          }
        case TurnSteerResponse(requestId, turn) =>
          var removed := TakeRequest((input.connection, requestId));
          if removed.Some? && removed.value.PendingSteer? {
            if turn in turns {
              turns := turns[turn := turns[turn].(steerCount := turns[turn].steerCount + 1)];
            }
            out' := EmitTurnSteerEvent(input.connection, removed.value, Some(turn), None, out);
          }
        case OtherResponse =>
      }
    }

    /** `requests.remove(key)`. */
    method TakeRequest(key: Key) returns (removed: Option<Pending>)
      modifies this`requests
      ensures requests == old(requests) - {key}
      ensures removed == if key in old(requests) then Some(old(requests)[key]) else None
    {
      removed := if key in requests then Some(requests[key]) else None;
      requests := requests - {key};
    }

    method IngestErrorResponse(input: Fact, out: seq<Event>) returns (out': seq<Event>)
      requires input.ErrorResponse?
      modifies this
      ensures Contents() == Ingest(old(Contents()), input).state
      ensures out' == out + Ingest(old(Contents()), input).events
    {
      out' := out;
      var removed := TakeRequest((input.connection, input.requestId));
      if removed.Some? && removed.value.PendingSteer? {
        out' := EmitTurnSteerEvent(input.connection, removed.value, None, input.reason, out);
      }
    }

    method EmitThreadInitialized(connection: nat, thread: string, metadata: ThreadMetadata, out: seq<Event>)
      returns (out': seq<Event>)
      modifies this`threadConnections, this`threadMetadata
      ensures connection !in connections ==> Contents() == old(Contents()) && out' == out
      ensures connection in connections ==>
                && threadConnections == old(threadConnections)[thread := connection]
                && threadMetadata == old(threadMetadata)[thread := metadata]
                && out' == out + [ThreadInitialized(thread, connections[connection], metadata)]
    {
      out' := out;
      if connection in connections {
        threadConnections := threadConnections[thread := connection];
        threadMetadata := threadMetadata[thread := metadata];
        out' := out + [ThreadInitialized(thread, connections[connection], metadata)];
      }
    }

    method IngestCompaction(thread: string, turn: string, out: seq<Event>) returns (out': seq<Event>)
      ensures out' == out + OtherEvents(Contents(), Compaction(thread, turn))
    {
      out' := out;
      if thread !in threadConnections {
        return;
      }
      var connection := threadConnections[thread];
      if connection !in connections {
        return;
      }
      if thread !in threadMetadata {
        return;
      }
      out' := out + [CompactionEvent(thread, turn, connections[connection], threadMetadata[thread])];
    }

    method IngestGuardianReview(thread: string, turn: string, out: seq<Event>) returns (out': seq<Event>)
      ensures out' == out + OtherEvents(Contents(), GuardianReview(thread, turn))
    {
      out' := out;
      if thread !in threadConnections {
        return;
      }
      var connection := threadConnections[thread];
      if connection !in connections {
        return;
      }
      out' := out + [GuardianEvent(thread, turn, connections[connection])];
    }

    method EmitTurnSteerEvent(connection: nat, p: Pending, accepted: Option<string>, reason: Option<string>,
                              out: seq<Event>) returns (out': seq<Event>)
      requires p.PendingSteer?
      ensures out' == out + SteerEvents(Contents(), connection, p, accepted, reason)
    {
      out' := out;
      if connection !in connections {
        return;
      }
      if p.thread !in threadMetadata {
        return;
      }
      out' := out + [SteerEvent(p.thread, p.expectedTurn, accepted, connections[connection],
                                threadMetadata[p.thread], p.images, reason, p.createdAt)];
    }

    method MaybeEmitTurnEvent(turn: string, out: seq<Event>) returns (out': seq<Event>)
      modifies this`turns
      ensures Contents() == Settle(old(Contents()), turn).state
      ensures out' == out + Settle(old(Contents()), turn).events
    {
      out' := out;
      if turn !in turns {
        return;
      }
      var t := turns[turn];
      if t.thread.None? || t.images.None? || t.config.None? || t.completed.None? {
        return;
      }
      if t.connection.None? || t.connection.value !in connections {
        return;
      }
      if t.thread.value !in threadMetadata {
        return;
      }
      out' := out + [TurnEventOf(Contents(), turn)];
      turns := turns - {turn};
    }
  }
}
