/** Where the contents of turn and steer events come from: the latest fact that supplies each part. */
module ReducerFields {
  import opened Common
  import opened Rpc
  import opened Reducer
  import opened ReducerHistory
  import opened ReducerTurns

  /** The parts of a turn entry that facts fill in. */
  datatype Slot = Connection | Thread | Images | Config | Started | Usage | Completion

  /** The fact supplies this part of the turn. */
  predicate Supplies(s: State, f: Fact, u: string, slot: Slot) {
    var started := Starts(s, f, u);
    var used := f.TurnTokenUsage? && f.turn == u;
    match slot
    case Connection => started
    case Thread => started || Configures(f, u) || used
    case Images => started || Configures(f, u)
    case Config => Configures(f, u)
    case Started => f.TurnStarted? && f.turn == u
    case Usage => used
    case Completion => Completes(f, u)
  }

  /** A negative or missing number is no number. */
  predicate SameNumber(said: Option<int>, held: Option<nat>) {
    match held
    case Some(n) => said == Some(n)
    case None => said.None? || said.value < 0
  }

  /** A completion is held with its final status, its error and its numbers; a missing time counts as zero. */
  predicate CompletionHeld(f: Fact, c: CompletedTurn)
    requires f.TurnCompleted?
  {
    && (c.status == None <==> f.status == InProgress) && (c.status.Some? ==> c.status.value == f.status)
    && c.error == f.error && SameNumber(f.durationMs, c.durationMs)
    && (SameNumber(f.completedAt, Some(c.completedAt)) || (SameNumber(f.completedAt, None) && c.completedAt == 0))
  }

  /** The entry's part is what the fact said, a TurnStart response speaking for the request it answers. */
  predicate HoldsFrom(t: TurnState, s: State, f: Fact, u: string, slot: Slot)
    requires Supplies(s, f, u, slot)
  {
    match slot
    case Connection => t.connection == Some(f.connection)
    case Thread =>
      t.thread ==
      Some(if f.Response? then AcceptedThread(s, f)
           else if f.TurnResolvedConfig? then f.config.thread
           else f.thread)
    case Images =>
      t.images ==
      Some(if f.Response? then s.requests[(f.connection, f.response.requestId)].images else f.config.images)
    case Config => t.config == Some(f.config)
    case Started => SameNumber(f.startedAt, t.startedAt)
    case Usage => t.usage == Some(f.usage)
    case Completion => t.completed.Some? && CompletionHeld(f, t.completed.value)
  }

  predicate SameSlot(t: TurnState, t': TurnState, slot: Slot) {
    match slot
    case Connection => t.connection == t'.connection
    case Thread => t.thread == t'.thread
    case Images => t.images == t'.images
    case Config => t.config == t'.config
    case Started => t.startedAt == t'.startedAt
    case Usage => t.usage == t'.usage
    case Completion => t.completed == t'.completed
  }

  /** The part has not been filled in. */
  predicate Blank(t: TurnState, slot: Slot) {
    match slot
    case Connection => t.connection.None?
    case Thread => t.thread.None?
    case Images => t.images.None?
    case Config => t.config.None?
    case Started => t.startedAt.None?
    case Usage => t.usage.None?
    case Completion => t.completed.None?
  }

  /** A write takes a part from the fact if the fact supplies it, and keeps it otherwise. */
  lemma WriteFills(s: State, f: Fact, slot: Slot)
    requires Write(s, f).Some?
    ensures var w := Write(s, f).value;
      if Supplies(s, f, w.turn, slot) then HoldsFrom(w.entry, s, f, w.turn, slot)
      else SameSlot(Entry(s, w.turn), w.entry, slot)
  {
  }

  lemma SupplierWrites(s: State, f: Fact, u: string, slot: Slot)
    requires Supplies(s, f, u, slot)
    ensures Write(s, f).Some? && Write(s, f).value.turn == u
  {
  }

  /** The same for an entry that is still there after the fact. */
  lemma EntryFills(s: State, f: Fact, u: string, slot: Slot)
    requires u in Ingest(s, f).state.turns
    ensures var t := Ingest(s, f).state.turns[u];
      if Supplies(s, f, u, slot) then HoldsFrom(t, s, f, u, slot) else SameSlot(Entry(s, u), t, slot)
  {
    if Write(s, f).Some? && Write(s, f).value.turn == u {
      EntryWritten(s, f);
      WriteFills(s, f, slot);
    } else {
      OneEntryWritten(s, f, u);
      if Supplies(s, f, u, slot) {
        SupplierWrites(s, f, u, slot);
      }
    }
  }

  ghost predicate SuppliedAt(facts: seq<Fact>, j: int, u: string, slot: Slot) {
    0 <= j < |facts| && Supplies(After(facts, j), facts[j], u, slot)
  }

  /** Fact `j` is the last of facts `k, ..., n - 1` to supply the part. */
  ghost predicate LastSupplier(facts: seq<Fact>, k: nat, n: nat, u: string, slot: Slot, j: int) {
    k <= j < n && SuppliedAt(facts, j, u, slot) && forall l :: j < l < n ==> !SuppliedAt(facts, l, u, slot)
  }

  /** The part comes from its last supplier since fact `k`, or is blank because there was none. */
  ghost predicate FromLast(facts: seq<Fact>, k: nat, n: nat, u: string, slot: Slot, t: TurnState) {
    || (Blank(t, slot) && forall l :: k <= l < n ==> !SuppliedAt(facts, l, u, slot))
    || exists j :: LastSupplier(facts, k, n, u, slot, j) && HoldsFrom(t, After(facts, j), facts[j], u, slot)
  }

  ghost predicate AllFromLast(facts: seq<Fact>, k: nat, n: nat, u: string, t: TurnState) {
    forall slot :: FromLast(facts, k, n, u, slot, t)
  }

  lemma SameHolds(t: TurnState, t': TurnState, s: State, f: Fact, u: string, slot: Slot)
    requires Supplies(s, f, u, slot) && HoldsFrom(t, s, f, u, slot) && SameSlot(t, t', slot)
    ensures HoldsFrom(t', s, f, u, slot)
  {
  }

  lemma StaysLast(facts: seq<Fact>, k: nat, n: nat, u: string, slot: Slot, j: int)
    requires LastSupplier(facts, k, n, u, slot, j) && !SuppliedAt(facts, n, u, slot)
    ensures LastSupplier(facts, k, n + 1, u, slot, j)
  {
  }

  lemma KeptFromLast(facts: seq<Fact>, k: nat, n: nat, u: string, slot: Slot, t: TurnState, t': TurnState)
    requires FromLast(facts, k, n, u, slot, t) && !SuppliedAt(facts, n, u, slot) && SameSlot(t, t', slot)
    ensures FromLast(facts, k, n + 1, u, slot, t')
  {
    if j :| LastSupplier(facts, k, n, u, slot, j) && HoldsFrom(t, After(facts, j), facts[j], u, slot) {
      StaysLast(facts, k, n, u, slot, j);
      SameHolds(t, t', After(facts, j), facts[j], u, slot);
    }
  }

  lemma FromLastStep(facts: seq<Fact>, k: nat, n: nat, u: string, slot: Slot, t: TurnState, t': TurnState)
    requires k <= n < |facts| && FromLast(facts, k, n, u, slot, t)
    requires if Supplies(After(facts, n), facts[n], u, slot) then HoldsFrom(t', After(facts, n), facts[n], u, slot)
      else SameSlot(t, t', slot)
    ensures FromLast(facts, k, n + 1, u, slot, t')
  {
    if SuppliedAt(facts, n, u, slot) {
      var m := n + 1;
      assert LastSupplier(facts, k, m, u, slot, n);
    } else {
      KeptFromLast(facts, k, n, u, slot, t, t');
    }
  }

  lemma EntryFromLastStep(facts: seq<Fact>, k: nat, m: nat, n: nat, u: string, slot: Slot)
    requires k <= m < n == m + 1 <= |facts| && u in After(facts, n).turns
    requires FromLast(facts, k, m, u, slot, Entry(After(facts, m), u))
    ensures FromLast(facts, k, n, u, slot, After(facts, n).turns[u])
  {
    EntryFills(After(facts, m), facts[m], u, slot);
    FromLastStep(facts, k, m, u, slot, Entry(After(facts, m), u), After(facts, n).turns[u]);
  }

  lemma NothingBefore(facts: seq<Fact>, k: nat, u: string, slot: Slot)
    ensures FromLast(facts, k, k, u, slot, NEW_TURN)
  {
  }

  /** Every part of a turn entry is what its last supplier since the entry's creation said. */
  lemma {:induction false} EntryFromLast(facts: seq<Fact>, k: nat, n: nat, u: string, slot: Slot)
    requires n <= |facts| && CreatedBy(facts, k, n, u)
    ensures FromLast(facts, k, n, u, slot, After(facts, n).turns[u])
  {
    var m := n - 1;
    assert u in After(facts, n).turns;
    if m == k {
      NothingBefore(facts, k, u, slot);
    } else {
      EntryFromLast(facts, k, m, u, slot);
      assert u in After(facts, m).turns;
    }
    EntryFromLastStep(facts, k, m, n, u, slot);
  }

  /** The event's fields are the entry's parts. */
  predicate Shows(e: Event, t: TurnState)
    requires e.TurnEvent?
  {
    && t.thread == Some(e.thread) && t.images == Some(e.images) && t.config == Some(e.config)
    && t.completed == Some(e.completed) && t.startedAt == e.startedAt && t.usage == e.usage
  }

  /** The metadata of a thread: its origin, and how the response brought it about. */
  predicate Describes(response: ClientResponse, metadata: ThreadMetadata) {
    match response
    case ThreadStart(_, origin) => metadata == ThreadMetadata(origin, New)
    case ThreadResume(_, origin) => metadata == ThreadMetadata(origin, Resumed)
    case ThreadFork(_, origin) => metadata == ThreadMetadata(origin, Forked)
    case _ => false
  }

  /** Facts `j` and `l` are the latest to say who the connection's client and what the thread is. */
  ghost predicate MetadataFrom(
    facts: seq<Fact>, i: nat, c: nat, thread: string, client: ConnectionMetadata, metadata: ThreadMetadata, j: nat,
    l: nat)
    requires i <= |facts|
  {
    && LatestInitialize(facts, i, c, j) && client == facts[j].metadata
    && LatestLifecycle(facts, i, thread, l) && Describes(facts[l].response, metadata)
  }

  /** Fact `r` is the request that the TurnStart response at `j` answers. */
  ghost predicate StartRequest(facts: seq<Fact>, j: int, r: int) {
    && 0 <= j < |facts| && facts[j].Response? && facts[j].response.TurnStartResponse?
    && Outstanding(facts, j, (facts[j].connection, facts[j].response.requestId), r)
    && facts[r].request.TurnStartRequest?
  }

  /** The start that fact `j` accepted was asked for with this many images. */
  ghost predicate ImagesAsked(facts: seq<Fact>, j: int, images: nat) {
    exists r :: StartRequest(facts, j, r) && images == |ImagePlaces(facts[r].request.input)|
  }

  /** An accepted start brings the thread and the image count of the request it answers. */
  lemma StartSaid(facts: seq<Fact>, j: nat, u: string, t: TurnState)
    requires j < |facts| && Starts(After(facts, j), facts[j], u)
    requires HoldsFrom(t, After(facts, j), facts[j], u, Images)
    ensures t.images.Some? && ImagesAsked(facts, j, t.images.value)
  {
    RequestsFollowFacts(facts, j, (facts[j].connection, facts[j].response.requestId));
    var r :| Outstanding(facts, j, (facts[j].connection, facts[j].response.requestId), r);
    NumInputImagesCounts(facts[r].request.input);
    assert StartRequest(facts, j, r);
  }

  /** The image count is that of the request answered by the last accepted start, or that of a config since. */
  ghost predicate ImagesFromLast(facts: seq<Fact>, k: nat, n: nat, u: string, images: nat) {
    exists a :: LastSupplier(facts, k, n, u, Images, a) &&
      if facts[a].Response? then ImagesAsked(facts, a, images) else facts[a].config.images == images
  }

  lemma LastImages(facts: seq<Fact>, k: nat, n: nat, u: string, t: TurnState)
    requires FromLast(facts, k, n, u, Images, t) && t.images.Some?
    ensures ImagesFromLast(facts, k, n, u, t.images.value)
  {
    var a :| LastSupplier(facts, k, n, u, Images, a) && HoldsFrom(t, After(facts, a), facts[a], u, Images);
    if facts[a].Response? {
      StartSaid(facts, a, u, t);
    }
  }

  /** An emitted event shows the entry that its fact wrote, and counts the steers that the entry had. */
  lemma EmittedShows(s: State, f: Fact, e: Event) returns (t: TurnState)
    requires e in Ingest(s, f).events && e.TurnEvent?
    ensures Write(s, f).Some? && Write(s, f).value.turn == e.turn && Write(s, f).value.entry == t && Shows(e, t)
    ensures e.turn in s.turns && e.steerCount == s.turns[e.turn].steerCount
    ensures t.connection.Some? && t.connection.value in s.connections && e.client == s.connections[t.connection.value]
    ensures e.thread in s.threadMetadata && e.metadata == s.threadMetadata[e.thread]
  {
    EmittedWhenReady(s, f, e);
    EmittedHadEntry(s, f, e.turn);
    t := EmittedFrom(s, f, e);
  }

  lemma WrittenFromLast(facts: seq<Fact>, k: nat, i: nat, n: nat, u: string, slot: Slot)
    requires i < n == i + 1 <= |facts| && CreatedBy(facts, k, i, u)
    requires Write(After(facts, i), facts[i]).Some? && Write(After(facts, i), facts[i]).value.turn == u
    ensures FromLast(facts, k, n, u, slot, Write(After(facts, i), facts[i]).value.entry)
  {
    WriteFills(After(facts, i), facts[i], slot);
    EntryFromLast(facts, k, i, u, slot);
    FromLastStep(facts, k, i, u, slot, Entry(After(facts, i), u), Write(After(facts, i), facts[i]).value.entry);
  }

  /**
    Every field of an emitted turn event is what the last fact to supply it said, among the facts since the turn's
    entry was created, the emitting fact included; its client and thread metadata are the latest of the connection and
    thread so found, and its steer count is the number of steer responses matched since.
   */
  lemma EventFromLast(facts: seq<Fact>, i: nat, e: Event) returns (k: nat, t: TurnState, j: nat, l: nat)
    requires i < |facts| && e in Out(facts, i) && e.TurnEvent?
    ensures CreatedBy(facts, k, i, e.turn) && Shows(e, t)
    ensures e.steerCount == MatchedSteers(facts, k + 1, i, e.turn)
    ensures t.connection.Some? && MetadataFrom(facts, i, t.connection.value, e.thread, e.client, e.metadata, j, l)
    ensures AllFromLast(facts, k, i + 1, e.turn, t)
    ensures ImagesFromLast(facts, k, i + 1, e.turn, e.images)
  {
    var n := i + 1;
    t := EmittedShows(After(facts, i), facts[i], e);
    k := CreationPoint(facts, i, e.turn);
    SteerCountIsMatches(facts, k, i, e.turn);
    j, l := MetadataSources(facts, i, t.connection.value, e.thread);
    forall slot ensures FromLast(facts, k, n, e.turn, slot, t) {
      WrittenFromLast(facts, k, i, n, e.turn, slot);
    }
    LastImages(facts, k, n, e.turn, t);
  }

  // ---- Steer events ----

  /** Only a matching response or error emits a steer event, with the fields of the request it answers. */
  lemma SteerEmittedFrom(s: State, f: Fact, e: Event)
    requires e in Ingest(s, f).events && e.SteerEvent?
    ensures AcceptsSteer(s, f) || RejectsSteer(s, f)
    ensures ConsumedKey(f).Some? && ConsumedKey(f).value in s.requests
    ensures s.requests[ConsumedKey(f).value] == PendingSteer(e.thread, e.expectedTurn, e.images, e.createdAt)
    ensures e.acceptedTurn == if f.Response? then Some(f.response.turn) else None
    ensures e.reason == if f.Response? then None else f.reason
    ensures f.connection in s.connections && e.client == s.connections[f.connection]
    ensures e.thread in s.threadMetadata && e.metadata == s.threadMetadata[e.thread]
  {
    assert e in OtherEvents(s, f);
  }

  /**
    Every steer event answers the one outstanding steer request with its connection and id, and repeats that request's
    thread, expected turn, image count and time; it names an accepted turn exactly when it was accepted, carries the
    reason of a rejection, and the latest metadata of the connection and the thread.
   */
  lemma SteerEventBacked(facts: seq<Fact>, i: nat, e: Event) returns (r: nat, j: nat, l: nat)
    requires i < |facts| && e in Out(facts, i) && e.SteerEvent?
    ensures ConsumedKey(facts[i]).Some? && Outstanding(facts, i, ConsumedKey(facts[i]).value, r)
    ensures r < i && facts[r].Request? && facts[r].request.TurnSteerRequest?
    ensures facts[r].request.thread == e.thread && facts[r].request.expectedTurn == e.expectedTurn
    ensures |ImagePlaces(facts[r].request.input)| == e.images && facts[r].now == e.createdAt
    ensures e.acceptedTurn == if facts[i].Response? then Some(facts[i].response.turn) else None
    ensures e.reason == if facts[i].Response? then None else facts[i].reason
    ensures MetadataFrom(facts, i, facts[i].connection, e.thread, e.client, e.metadata, j, l)
  {
    SteerEmittedFrom(After(facts, i), facts[i], e);
    var key := ConsumedKey(facts[i]).value;
    RequestsFollowFacts(facts, i, key);
    var q :| Outstanding(facts, i, key, q);
    r := q;
    NumInputImagesCounts(facts[r].request.input);
    j, l := MetadataSources(facts, i, facts[i].connection, e.thread);
  }

  /** A later TurnStarted without a time takes an earlier one's away, so a start time can be missing after all. */
  lemma StartTimeCanBeCleared(s: State, u: string, at: nat)
    ensures var s1 := Ingest(s, TurnStarted(u, Some(at))).state;
            var s2 := Ingest(s1, TurnStarted(u, None)).state;
            s1.turns[u].startedAt == Some(at) && s2.turns[u].startedAt == None
  {
  }
}
