/** What the order of a turn's three facts can be seen by in its event: the image count, and nothing else. */
module ReducerOrders {
  import opened Common
  import opened Rpc
  import opened Reducer
  import opened ReducerHistory
  import opened ReducerTurns

  datatype Part = Start | Config | Completion

  /** A turn's accepted start, resolved config and completion. */
  datatype Scene = Scene(turn: string, start: Fact, config: Fact, completion: Fact)

  function FactOf(scene: Scene, part: Part): Fact {
    match part
    case Start => scene.start
    case Config => scene.config
    case Completion => scene.completion
  }

  function StartKey(scene: Scene): Key
    requires scene.start.Response? && scene.start.response.TurnStartResponse?
  {
    (scene.start.connection, scene.start.response.requestId)
  }

  predicate OfTurn(scene: Scene) {
    && scene.start.Response? && scene.start.response.TurnStartResponse? && scene.start.response.turn == scene.turn
    && Configures(scene.config, scene.turn) && Completes(scene.completion, scene.turn)
  }

  /**
    The three facts are due in this state: the start's request is pending and names the config's thread, thread and
    connection are known, and the turn has none of the three parts yet. It may have a start time, usage and steers.
   */
  predicate Due(s: State, scene: Scene) {
    && OfTurn(scene)
    && StartKey(scene) in s.requests && s.requests[StartKey(scene)].PendingStart?
    && s.requests[StartKey(scene)].thread == scene.config.config.thread
    && scene.start.connection in s.connections && scene.config.config.thread in s.threadMetadata
    && var e := Entry(s, scene.turn); e.connection.None? && e.config.None? && e.completed.None?
  }

  /** What a part makes of the turn's entry; `p` is the request that the start answers. */
  function Put(scene: Scene, p: Pending, e: TurnState, part: Part): TurnState
    requires OfTurn(scene)
  {
    match part
    case Start => e.(connection := Some(scene.start.connection), thread := Some(p.thread), images := Some(p.images))
    case Config =>
      var config := scene.config.config;
      e.(thread := Some(config.thread), images := Some(config.images), config := Some(config))
    case Completion => e.(completed := Some(CompletedOf(scene.completion)))
  }

  /** What the parts not yet taken need from the state is as it was. */
  predicate Along(s: State, now: State, scene: Scene, started: bool)
    requires OfTurn(scene)
  {
    && now.connections == s.connections && now.threadMetadata == s.threadMetadata
    && (!started && StartKey(scene) in s.requests ==>
          StartKey(scene) in now.requests && now.requests[StartKey(scene)] == s.requests[StartKey(scene)])
  }

  /** One part writes the turn's entry and then tries to settle it. */
  lemma PartWrites(s: State, now: State, scene: Scene, part: Part, started: bool)
    requires Due(s, scene) && Along(s, now, scene, started) && (part.Start? ==> !started)
    ensures Write(now, FactOf(scene, part)) ==
            Some(TurnWrite(scene.turn, Put(scene, s.requests[StartKey(scene)], Entry(now, scene.turn), part), true))
    ensures Along(s, Bookkeeping(now, FactOf(scene, part)), scene, started || part.Start?)
  {
  }

  predicate Complete(e: TurnState) { e.connection.Some? && e.config.Some? && e.completed.Some? }

  /** A part that does not complete the entry emits nothing. */
  lemma PartWaits(s: State, now: State, scene: Scene, part: Part, started: bool)
    requires Due(s, scene) && Along(s, now, scene, started) && (part.Start? ==> !started)
    requires !Complete(Put(scene, s.requests[StartKey(scene)], Entry(now, scene.turn), part))
    ensures var r := Ingest(now, FactOf(scene, part));
      && r.events == []
      && Entry(r.state, scene.turn) == Put(scene, s.requests[StartKey(scene)], Entry(now, scene.turn), part)
      && Along(s, r.state, scene, started || part.Start?)
  {
    PartWrites(s, now, scene, part, started);
    OnlyBookkeeping(now, FactOf(scene, part));
  }

  /** The event of a complete entry of this thread and connection. */
  function EventFor(s: State, scene: Scene, e: TurnState): Event
    requires Due(s, scene) && Complete(e) && e.images.Some?
  {
    var thread := scene.config.config.thread;
    TurnEvent(scene.turn, thread, s.connections[scene.start.connection], s.threadMetadata[thread], e.images.value,
              e.config.value, e.completed.value, e.startedAt, e.usage, e.steerCount)
  }

  /** The part that completes it emits that event, and nothing else. */
  lemma PartEmits(s: State, now: State, scene: Scene, part: Part, started: bool)
    requires Due(s, scene) && Along(s, now, scene, started) && (part.Start? ==> !started)
    requires var e := Put(scene, s.requests[StartKey(scene)], Entry(now, scene.turn), part);
      && Complete(e) && e.images.Some?
      && e.connection == Some(scene.start.connection) && e.thread == Some(scene.config.config.thread)
    ensures Ingest(now, FactOf(scene, part)).events ==
            [EventFor(s, scene, Put(scene, s.requests[StartKey(scene)], Entry(now, scene.turn), part))]
  {
    PartWrites(s, now, scene, part, started);
  }

  predicate AnOrder(p1: Part, p2: Part, p3: Part) { p1 != p2 && p1 != p3 && p2 != p3 }

  /** The events of the three facts in this order. */
  function Emitted(s: State, scene: Scene, p1: Part, p2: Part, p3: Part): seq<Event> {
    var r1 := Ingest(s, FactOf(scene, p1));
    var r2 := Ingest(r1.state, FactOf(scene, p2));
    var r3 := Ingest(r2.state, FactOf(scene, p3));
    r1.events + r2.events + r3.events
  }

  /** Whether the start comes before the config. */
  predicate StartFirst(p1: Part, p2: Part, p3: Part) { p1.Start? || (p2.Start? && !p1.Config?) }

  /** The image count is that of the later of the two facts that bring one. */
  function ImagesIn(s: State, scene: Scene, startFirst: bool): nat
    requires Due(s, scene)
  {
    if startFirst then scene.config.config.images else s.requests[StartKey(scene)].images
  }

  /** The turn's event when its image count is `images`. */
  function EventWith(s: State, scene: Scene, images: nat): Event
    requires Due(s, scene)
  {
    var thread, e := scene.config.config.thread, Entry(s, scene.turn);
    TurnEvent(scene.turn, thread, s.connections[scene.start.connection], s.threadMetadata[thread], images,
              scene.config.config, CompletedOf(scene.completion), e.startedAt, e.usage, e.steerCount)
  }

  /** In each of the six orders the three facts emit one event, whose every field is known. */
  lemma ThreeFactsEmit(s: State, scene: Scene, p1: Part, p2: Part, p3: Part)
    requires Due(s, scene) && AnOrder(p1, p2, p3)
    ensures Emitted(s, scene, p1, p2, p3) == [EventWith(s, scene, ImagesIn(s, scene, StartFirst(p1, p2, p3)))]
  {
    var p := s.requests[StartKey(scene)];
    var e0 := Entry(s, scene.turn);
    var e1 := Put(scene, p, e0, p1);
    var e2 := Put(scene, p, e1, p2);
    var e3 := Put(scene, p, e2, p3);
    PartWaits(s, s, scene, p1, false);
    var s1 := Ingest(s, FactOf(scene, p1)).state;
    PartWaits(s, s1, scene, p2, p1.Start?);
    var s2 := Ingest(s1, FactOf(scene, p2)).state;
    PutInOrder(s, scene, p1, p2, p3);
    PartEmits(s, s2, scene, p3, p1.Start? || p2.Start?);
    assert [] + [] + [EventFor(s, scene, e3)] == [EventFor(s, scene, e3)];
  }

  lemma PutInOrder(s: State, scene: Scene, p1: Part, p2: Part, p3: Part)
    requires Due(s, scene) && AnOrder(p1, p2, p3)
    ensures var p := s.requests[StartKey(scene)];
      var e := Put(scene, p, Put(scene, p, Put(scene, p, Entry(s, scene.turn), p1), p2), p3);
      && Complete(e) && e.connection == Some(scene.start.connection) && e.thread == Some(scene.config.config.thread)
      && e.images == Some(ImagesIn(s, scene, StartFirst(p1, p2, p3)))
      && EventFor(s, scene, e) == EventWith(s, scene, ImagesIn(s, scene, StartFirst(p1, p2, p3)))
  {
  }

  /**
    Two orders of the same three facts emit the same event exactly when start and config come in the same order or bring
    the same image count; otherwise the events differ in that count alone.
   */
  lemma OrdersDifferByImages(
    s: State, scene: Scene, p1: Part, p2: Part, p3: Part, q1: Part, q2: Part, q3: Part)
    requires Due(s, scene) && AnOrder(p1, p2, p3) && AnOrder(q1, q2, q3)
    ensures Emitted(s, scene, p1, p2, p3) == Emitted(s, scene, q1, q2, q3) <==>
            || StartFirst(p1, p2, p3) == StartFirst(q1, q2, q3)
            || s.requests[StartKey(scene)].images == scene.config.config.images
    ensures Emitted(s, scene, p1, p2, p3) == [EventWith(s, scene, ImagesIn(s, scene, StartFirst(p1, p2, p3)))]
    ensures Emitted(s, scene, q1, q2, q3) == [EventWith(s, scene, ImagesIn(s, scene, StartFirst(q1, q2, q3)))]
  {
    ThreeFactsEmit(s, scene, p1, p2, p3);
    ThreeFactsEmit(s, scene, q1, q2, q3);
  }

  /**
    Over a run: once the three facts are due, the event they emit counts the images of the config, or, if that comes
    first, of the one outstanding request with the start's connection and id.
   */
  lemma ThreeFactsCountImages(facts: seq<Fact>, n: nat, scene: Scene, p1: Part, p2: Part, p3: Part) returns (r: nat)
    requires n <= |facts| && Due(After(facts, n), scene) && AnOrder(p1, p2, p3)
    ensures Outstanding(facts, n, StartKey(scene), r) && facts[r].request.TurnStartRequest?
    ensures Emitted(After(facts, n), scene, p1, p2, p3) == [EventWith(After(facts, n), scene,
      if StartFirst(p1, p2, p3) then scene.config.config.images else |ImagePlaces(facts[r].request.input)|)]
  {
    ThreeFactsEmit(After(facts, n), scene, p1, p2, p3);
    RequestsFollowFacts(facts, n, StartKey(scene));
    var q :| Outstanding(facts, n, StartKey(scene), q);
    r := q;
    NumInputImagesCounts(facts[r].request.input);
  }
}
