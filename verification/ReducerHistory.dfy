/** What every run of the analytics reducer keeps, told in terms of the facts that came before. */
module ReducerHistory {
  import opened Common
  import opened Rpc
  import opened Reducer

  // ---- Connections and threads ----

  ghost predicate ConnectionSeen(facts: seq<Fact>, n: nat, c: nat)
    requires n <= |facts|
  {
    exists j :: 0 <= j < n && facts[j].Initialize? && facts[j].connection == c
  }

  /** `facts[j]` is the last Initialize of connection `c` among the first `n` facts. */
  ghost predicate LatestInitialize(facts: seq<Fact>, n: nat, c: nat, j: int)
    requires n <= |facts|
  {
    && 0 <= j < n && facts[j].Initialize? && facts[j].connection == c
    && forall k :: j < k < n ==> !(facts[k].Initialize? && facts[k].connection == c)
  }

  /** The `i`-th fact is a lifecycle response for the thread on a connection that was already initialized. */
  ghost predicate Announces(facts: seq<Fact>, i: int, thread: string) {
    && 0 <= i < |facts| && IsLifecycle(facts[i]) && facts[i].response.thread == thread
    && ConnectionSeen(facts, i, facts[i].connection)
  }

  ghost predicate ThreadSeen(facts: seq<Fact>, n: nat, thread: string)
    requires n <= |facts|
  {
    exists i :: 0 <= i < n && Announces(facts, i, thread)
  }

  ghost predicate LatestLifecycle(facts: seq<Fact>, n: nat, thread: string, j: int)
    requires n <= |facts|
  {
    0 <= j < n && Announces(facts, j, thread) && forall k :: j < k < n ==> !Announces(facts, k, thread)
  }

  lemma ConnectionsStep(s: State, f: Fact, c: nat)
    ensures var cs := Ingest(s, f).state.connections;
            if f.Initialize? && f.connection == c then c in cs && cs[c] == f.metadata
            else (c in cs <==> c in s.connections) && (c in cs ==> cs[c] == s.connections[c])
  {
    OnlyBookkeeping(s, f);
  }

  /** A connection is known once initialized, with the metadata of its latest Initialize. */
  lemma {:induction false} ConnectionsFollowFacts(facts: seq<Fact>, n: nat, c: nat)
    requires n <= |facts|
    ensures c in After(facts, n).connections <==> ConnectionSeen(facts, n, c)
    ensures c in After(facts, n).connections ==>
              exists j :: LatestInitialize(facts, n, c, j) && After(facts, n).connections[c] == facts[j].metadata
  {
    if n == 0 {
    } else {
      var s, f := After(facts, n - 1), facts[n - 1];
      ConnectionsFollowFacts(facts, n - 1, c);
      ConnectionsStep(s, f, c);
      if f.Initialize? && f.connection == c {
        assert LatestInitialize(facts, n, c, n - 1);
      } else if c in s.connections {
        var j :| LatestInitialize(facts, n - 1, c, j) && s.connections[c] == facts[j].metadata;
        assert LatestInitialize(facts, n, c, j);
      }
    }
  }

  lemma ThreadsStep(s: State, f: Fact, thread: string)
    ensures var s' := Ingest(s, f).state;
            if IsLifecycle(f) && f.response.thread == thread && f.connection in s.connections
            then
              && thread in s'.threadMetadata && s'.threadMetadata[thread] == LifecycleMetadata(f)
              && thread in s'.threadConnections && s'.threadConnections[thread] == f.connection
            else
              && (thread in s'.threadMetadata <==> thread in s.threadMetadata)
              && (thread in s'.threadConnections <==> thread in s.threadConnections)
              && (thread in s.threadMetadata ==> s'.threadMetadata[thread] == s.threadMetadata[thread])
              && (thread in s.threadConnections ==> s'.threadConnections[thread] == s.threadConnections[thread])
  {
    OnlyBookkeeping(s, f);
  }

  /** What the maps hold for a thread is what its latest lifecycle response said, and nothing when there was none. */
  ghost predicate ThreadAgrees(facts: seq<Fact>, n: nat, thread: string, s: State)
    requires n <= |facts|
  {
    && (thread in s.threadMetadata <==> ThreadSeen(facts, n, thread))
    && (thread in s.threadConnections <==> ThreadSeen(facts, n, thread))
    && (ThreadSeen(facts, n, thread) ==> exists j :: ThreadFrom(facts, n, thread, s, j))
  }

  ghost predicate ThreadFrom(facts: seq<Fact>, n: nat, thread: string, s: State, j: int)
    requires n <= |facts|
  {
    && LatestLifecycle(facts, n, thread, j)
    && thread in s.threadMetadata && s.threadMetadata[thread] == LifecycleMetadata(facts[j])
    && thread in s.threadConnections && s.threadConnections[thread] == facts[j].connection
  }

  lemma ThreadAgreesStep(facts: seq<Fact>, n: nat, thread: string)
    requires n < |facts| && ThreadAgrees(facts, n, thread, After(facts, n))
    ensures ThreadAgrees(facts, n + 1, thread, After(facts, n + 1))
  {
    var s, f, m := After(facts, n), facts[n], n + 1;
    ThreadsStep(s, f, thread);
    if IsLifecycle(f) {
      ConnectionsFollowFacts(facts, n, f.connection);
    }
    if Announces(facts, n, thread) {
      assert ThreadFrom(facts, m, thread, After(facts, m), n);
    } else if j :| ThreadFrom(facts, n, thread, s, j) {
      assert ThreadFrom(facts, m, thread, After(facts, m), j);
    }
  }

  /** A thread is known once announced, with the metadata and connection of its latest announcement. */
  lemma {:induction false} ThreadsFollowFacts(facts: seq<Fact>, n: nat, thread: string)
    requires n <= |facts|
    ensures ThreadAgrees(facts, n, thread, After(facts, n))
  {
    if n == 0 {
    } else {
      ThreadsFollowFacts(facts, n - 1, thread);
      ThreadAgreesStep(facts, n - 1, thread);
    }
  }

  /** The two thread maps have the same keys, and every recorded connection is known. */
  predicate Linked(s: State) {
    && s.threadConnections.Keys == s.threadMetadata.Keys
    && forall t :: t in s.threadConnections ==> s.threadConnections[t] in s.connections
  }

  lemma LinkedStep(s: State, f: Fact)
    requires Linked(s)
    ensures Linked(Bookkeeping(s, f))
  {
  }

  /** Writing and settling a turn leaves the other four maps alone. */
  lemma OnlyBookkeeping(s: State, f: Fact)
    ensures Ingest(s, f).state.(turns := s.turns) == Bookkeeping(s, f)
  {
    TurnsUntouched(s, f);
    if Write(s, f).Some? {
      SettleWritesTurns(Bookkeeping(s, f), Write(s, f).value);
    }
  }

  lemma TurnsUntouched(s: State, f: Fact)
    ensures Bookkeeping(s, f).turns == s.turns
  {
  }

  lemma SettleWritesTurns(s: State, w: TurnWrite)
    ensures Written(s, w).(turns := s.turns) == s
    ensures Settle(Written(s, w), w.turn).state.(turns := s.turns) == s
  {
  }

  lemma {:induction false} LinkedAlways(facts: seq<Fact>, n: nat)
    requires n <= |facts|
    ensures Linked(After(facts, n))
  {
    if n == 0 {
    } else {
      LinkedAlways(facts, n - 1);
      LinkedStep(After(facts, n - 1), facts[n - 1]);
      OnlyBookkeeping(After(facts, n - 1), facts[n - 1]);
    }
  }

  /**
    A compaction or guardian-review fact is dropped only when its thread's lifecycle response has not been
    seen: the later "missing connection" and "missing lifecycle metadata" drops never happen in a run.
   */
  lemma OnlyUnknownThreadsDropped(facts: seq<Fact>, i: nat)
    requires i < |facts| && (facts[i].Compaction? || facts[i].GuardianReview?)
    ensures |Out(facts, i)| == if ThreadSeen(facts, i, facts[i].thread) then 1 else 0
    ensures facts[i].thread in After(facts, i).threadConnections ==> Out(facts, i) != []
  {
    LinkedAlways(facts, i);
    ThreadsFollowFacts(facts, i, facts[i].thread);
  }

  // ---- Pending requests ----

  predicate Registers(f: Fact, k: Key) {
    f.Request? && !f.request.OtherRequest? && (f.connection, f.requestId) == k
  }

  /** `facts[r]` registered key `k` and nothing has registered or consumed it since. */
  ghost predicate Outstanding(facts: seq<Fact>, n: nat, k: Key, r: int)
    requires n <= |facts|
  {
    && 0 <= r < n && Registers(facts[r], k)
    && forall j :: r < j < n ==> !Registers(facts[j], k) && ConsumedKey(facts[j]) != Some(k)
  }

  lemma RequestsStep(s: State, f: Fact, k: Key)
    ensures var rs := Ingest(s, f).state.requests;
            if Registers(f, k) then k in rs && rs[k] == PendingOf(f)
            else if ConsumedKey(f) == Some(k) then k !in rs
            else (k in rs <==> k in s.requests) && (k in rs ==> rs[k] == s.requests[k])
  {
    OnlyBookkeeping(s, f);
  }

  lemma OutstandingStep(facts: seq<Fact>, n: nat, k: Key, r: int)
    requires n < |facts|
    ensures Outstanding(facts, n + 1, k, r) <==>
            if Registers(facts[n], k) then r == n
            else ConsumedKey(facts[n]) != Some(k) && Outstanding(facts, n, k, r)
  {
  }

  /** The pending map holds exactly the outstanding requests. */
  lemma {:induction false} RequestsFollowFacts(facts: seq<Fact>, n: nat, k: Key)
    requires n <= |facts|
    ensures k in After(facts, n).requests <==> exists r :: Outstanding(facts, n, k, r)
    ensures forall r :: Outstanding(facts, n, k, r) ==> After(facts, n).requests[k] == PendingOf(facts[r])
  {
    if n == 0 {
    } else {
      var m := n - 1;
      RequestsFollowFacts(facts, m, k);
      RequestsStep(After(facts, m), facts[m], k);
      forall r
        ensures Outstanding(facts, n, k, r) <==>
                if Registers(facts[m], k) then r == m
                else ConsumedKey(facts[m]) != Some(k) && Outstanding(facts, m, k, r)
      {
        OutstandingStep(facts, m, k, r);
      }
      assert Registers(facts[m], k) ==> Outstanding(facts, n, k, m);
      if !Registers(facts[m], k) && ConsumedKey(facts[m]) != Some(k) {
        if r :| Outstanding(facts, m, k, r) {
          assert Outstanding(facts, n, k, r);
        }
      }
    }
  }

  /** A response or error changes nothing and emits nothing exactly when its key is not pending. */
  lemma UnmatchedIsInert(s: State, f: Fact)
    requires ConsumedKey(f).Some?
    ensures Ingest(s, f) == Step(s, []) <==> ConsumedKey(f).value !in s.requests
  {
    var key := ConsumedKey(f).value;
    if key in s.requests {
      OnlyBookkeeping(s, f);
      assert key !in Bookkeeping(s, f).requests;
    } else {
      assert s.requests - {key} == s.requests;
    }
  }

  /** The pending request under the key and the fact that consumes it are of different kinds. */
  predicate WrongKind(f: Fact, p: Pending) {
    && f.Response?
    && ((f.response.TurnStartResponse? && p.PendingSteer?) || (f.response.TurnSteerResponse? && p.PendingStart?))
  }

  /** No steer event can be made for want of a connection or of the thread's metadata. */
  predicate Unreportable(s: State, connection: nat, thread: string) {
    connection !in s.connections || thread !in s.threadMetadata
  }

  /** The accepted start tells a turn's entry nothing new, and the turn is still not ready. */
  predicate TellsNothing(s: State, f: Fact) {
    && AcceptsStart(s, f)
    && var w := Write(s, f).value;
       w.turn in s.turns && w.entry == s.turns[w.turn] && !Ready(Written(Bookkeeping(s, f), w), w.turn)
  }

  /** Only the pending request is lost. */
  predicate LosesRequest(s: State, f: Fact)
    requires ConsumedKey(f).Some? && ConsumedKey(f).value in s.requests
  {
    var p := s.requests[ConsumedKey(f).value];
    || WrongKind(f, p)
    || (f.ErrorResponse? && p.PendingStart?)
    || (f.ErrorResponse? && p.PendingSteer? && Unreportable(s, f.connection, p.thread))
    || (AcceptsSteer(s, f) && Unreportable(s, f.connection, p.thread) && f.response.turn !in s.turns)
    || TellsNothing(s, f)
  }

  /**
    A response or error that finds its key pending does no more than remove it exactly in these cases: the request is
    of the other kind; a start was refused; a steer cannot be reported and, if accepted, its turn has no entry; or an
    accepted start repeats what its turn's entry holds while the turn is not ready.
   */
  lemma OnlyConsumesIff(s: State, f: Fact)
    requires ConsumedKey(f).Some? && ConsumedKey(f).value in s.requests
    ensures Ingest(s, f) == Step(s.(requests := s.requests - {ConsumedKey(f).value}), []) <==> LosesRequest(s, f)
  {
    if Write(s, f).Some? {
      EntryWritten(s, f);
      var w := Write(s, f).value;
      if w.turn in s.turns && w.entry == s.turns[w.turn] {
        assert s.turns[w.turn := w.entry] == s.turns;
      }
    }
  }

  /** A run in which a start response takes away a pending steer, whose own response then finds nothing. */
  lemma WrongKindConsumes() returns (facts: seq<Fact>, key: Key)
    ensures |facts| == 4 && ConsumedKey(facts[2]) == ConsumedKey(facts[3]) == Some(key)
    ensures key in After(facts, 2).requests && WrongKind(facts[2], After(facts, 2).requests[key])
    ensures facts[3] == Response(key.0, TurnSteerResponse(key.1, "u")) && After(facts, 2).requests[key].PendingSteer?
    ensures key !in After(facts, 3).requests && Out(facts, 2) == [] && Out(facts, 3) == []
  {
    key := (0, IntegerId(7));
    facts := [
      Initialize(0, ConnectionMetadata("", "", "", "")),
      Request(0, key.1, TurnSteerRequest("t", "u", []), 0),
      Response(0, TurnStartResponse(key.1, "u")),
      Response(0, TurnSteerResponse(key.1, "u"))];
    assert After(facts, 1) == Ingest(EMPTY, facts[0]).state;
    assert After(facts, 2) == Ingest(After(facts, 1), facts[1]).state;
    var s := After(facts, 2);
    assert s.requests == map[key := PendingSteer("t", "u", 0, 0)];
    OnlyConsumesIff(s, facts[2]);
    assert After(facts, 3) == s.(requests := s.requests - {key});
    UnmatchedIsInert(After(facts, 3), facts[3]);
  }

  /** So the second of two responses or errors for one key is inert unless the key is requested again in between. */
  lemma SecondAnswerIsInert(facts: seq<Fact>, i: nat, j: nat)
    requires i < j < |facts|
    requires ConsumedKey(facts[i]).Some? && ConsumedKey(facts[j]) == ConsumedKey(facts[i])
    requires forall k :: i < k < j ==> !Registers(facts[k], ConsumedKey(facts[i]).value)
    ensures After(facts, j + 1) == After(facts, j) && Out(facts, j) == []
  {
    var key := ConsumedKey(facts[i]).value;
    RequestsFollowFacts(facts, j, key);
    assert forall r :: Outstanding(facts, j, key, r) ==> r < i || r > i;
    UnmatchedIsInert(After(facts, j), facts[j]);
  }

  // ---- Turn entries ----

  /** A fact changes no turn entry but the one it writes. */
  lemma OneEntryWritten(s: State, f: Fact, u: string)
    requires Write(s, f).None? || Write(s, f).value.turn != u
    ensures var s' := Ingest(s, f).state;
            && (u in s'.turns <==> u in s.turns)
            && (u in s.turns ==> s'.turns[u] == s.turns[u])
    ensures forall e :: e in Ingest(s, f).events && e.TurnEvent? ==> e.turn != u
  {
    TurnsUntouched(s, f);
    OthersAreNoTurnEvents(s, f);
    if Write(s, f).Some? {
      SettleWritesOne(Bookkeeping(s, f), Write(s, f).value, u);
    }
  }

  lemma OthersAreNoTurnEvents(s: State, f: Fact)
    ensures forall e :: e in OtherEvents(s, f) ==> !e.TurnEvent?
  {
  }

  lemma SettleWritesOne(s: State, w: TurnWrite, u: string)
    requires w.turn != u
    ensures var r := Settle(Written(s, w), w.turn);
            && (u in r.state.turns <==> u in s.turns)
            && (u in s.turns ==> r.state.turns[u] == s.turns[u])
            && forall e :: e in r.events ==> e.TurnEvent? && e.turn != u
  {
  }

  /** The written entry is kept, or its event is emitted and it is forgotten. */
  lemma EntryWritten(s: State, f: Fact)
    requires Write(s, f).Some?
    ensures var w, s' := Write(s, f).value, Ingest(s, f).state;
            if w.settles && Ready(Written(Bookkeeping(s, f), w), w.turn)
            then w.turn !in s'.turns
                 && Ingest(s, f).events == [TurnEventOf(Written(Bookkeeping(s, f), w), w.turn)]
            else w.turn in s'.turns && s'.turns[w.turn] == w.entry
                 && forall e :: e in Ingest(s, f).events ==> !e.TurnEvent?
  {
    OthersAreNoTurnEvents(s, f);
  }

  ghost predicate StartAccepted(facts: seq<Fact>, a: nat, u: string) {
    a < |facts| && AcceptsStart(After(facts, a), facts[a]) && facts[a].response.turn == u
  }

  ghost predicate ConnectionBacked(facts: seq<Fact>, n: nat, u: string, c: nat)
    requires n <= |facts|
  {
    exists a :: 0 <= a < n && StartAccepted(facts, a, u) && facts[a].connection == c
  }

  ghost predicate ConfigBacked(facts: seq<Fact>, n: nat, u: string, config: ResolvedConfig)
    requires n <= |facts|
  {
    exists b :: 0 <= b < n && facts[b] == TurnResolvedConfig(u, config)
  }

  ghost predicate CompletionBacked(facts: seq<Fact>, n: nat, u: string, completed: CompletedTurn)
    requires n <= |facts|
  {
    exists d :: 0 <= d < n && facts[d].TurnCompleted? && facts[d].turn == u && CompletedOf(facts[d]) == completed
  }

  /** Every part of a turn entry comes from a fact of that turn. */
  ghost predicate Backed(facts: seq<Fact>, n: nat, u: string, t: TurnState)
    requires n <= |facts|
  {
    && (t.connection.Some? ==> ConnectionBacked(facts, n, u, t.connection.value))
    && (t.config.Some? ==> ConfigBacked(facts, n, u, t.config.value))
    && (t.completed.Some? ==> CompletionBacked(facts, n, u, t.completed.value))
  }

  lemma BackedLater(facts: seq<Fact>, n: nat, u: string, t: TurnState)
    requires n < |facts| && Backed(facts, n, u, t)
    ensures Backed(facts, n + 1, u, t)
  {
  }

  /** A write takes each of the three parts from the fact itself or from the entry before it. */
  lemma WriteSources(s: State, f: Fact)
    requires Write(s, f).Some?
    ensures var w := Write(s, f).value;
            var t, t' := Entry(s, w.turn), w.entry;
            && (t'.connection == t.connection
                || (AcceptsStart(s, f) && f.response.turn == w.turn && t'.connection == Some(f.connection)))
            && (t'.config == t.config || (t'.config.Some? && f == TurnResolvedConfig(w.turn, t'.config.value)))
            && (t'.completed == t.completed
                || (f.TurnCompleted? && f.turn == w.turn && t'.completed == Some(CompletedOf(f))))
  {
  }

  lemma WrittenIsBacked(facts: seq<Fact>, n: nat, u: string)
    requires n < |facts| && Backed(facts, n, u, Entry(After(facts, n), u))
    requires Write(After(facts, n), facts[n]).Some? && Write(After(facts, n), facts[n]).value.turn == u
    ensures Backed(facts, n + 1, u, Write(After(facts, n), facts[n]).value.entry)
  {
    BackedLater(facts, n, u, Entry(After(facts, n), u));
    var s, f := After(facts, n), facts[n];
    WriteSources(s, f);
    if AcceptsStart(s, f) {
      assert StartAccepted(facts, n, f.response.turn);
    }
  }

  lemma EntryBackedStep(facts: seq<Fact>, m: nat, n: nat, u: string)
    requires m < n == m + 1 <= |facts| && Backed(facts, m, u, Entry(After(facts, m), u))
    ensures Backed(facts, n, u, Entry(After(facts, n), u))
  {
    var s, f := After(facts, m), facts[m];
    if Write(s, f).Some? && Write(s, f).value.turn == u {
      WrittenIsBacked(facts, m, u);
      EntryWritten(s, f);
    } else {
      OneEntryWritten(s, f, u);
      BackedLater(facts, m, u, Entry(s, u));
    }
  }

  lemma {:induction false} EntriesBacked(facts: seq<Fact>, n: nat, u: string)
    requires n <= |facts|
    ensures Backed(facts, n, u, Entry(After(facts, n), u))
  {
    if n == 0 {
    } else {
      EntriesBacked(facts, n - 1, u);
      EntryBackedStep(facts, n - 1, n, u);
    }
  }

  /** Only a settling write that makes its turn ready emits a turn event, and that is the only event. */
  lemma EmittedWhenReady(s: State, f: Fact, e: Event)
    requires e in Ingest(s, f).events && e.TurnEvent?
    ensures Write(s, f).Some? && Write(s, f).value.settles && Write(s, f).value.turn == e.turn
    ensures var s1 := Written(Bookkeeping(s, f), Write(s, f).value);
            Ready(s1, e.turn) && e == TurnEventOf(s1, e.turn)
  {
    if Write(s, f).Some? {
      EntryWritten(s, f);
    } else {
      OneEntryWritten(s, f, e.turn);
    }
  }

  /**
    Every turn event is backed by earlier facts of the run: a TurnStart request and the response that shares its
    connection and request id, the turn's resolved config and its completion, and the latest lifecycle response of
    the thread and Initialize of the connection, whose metadata the event carries.
   */
  lemma TurnEventBacked(facts: seq<Fact>, i: nat, e: Event) returns (r: nat, a: nat, b: nat, d: nat, j: nat, l: nat)
    requires i < |facts| && e in Out(facts, i) && e.TurnEvent?
    ensures r < a <= i && StartAccepted(facts, a, e.turn)
    ensures Registers(facts[r], ConsumedKey(facts[a]).value) && facts[r].request.TurnStartRequest?
    ensures b <= i && facts[b] == TurnResolvedConfig(e.turn, e.config)
    ensures d <= i && facts[d].TurnCompleted? && facts[d].turn == e.turn && CompletedOf(facts[d]) == e.completed
    ensures LatestLifecycle(facts, i, e.thread, l) && e.metadata == LifecycleMetadata(facts[l])
    ensures LatestInitialize(facts, i, facts[a].connection, j) && e.client == facts[j].metadata
  {
    var t := EmittedFrom(After(facts, i), facts[i], e);
    EntriesBacked(facts, i, e.turn);
    WrittenIsBacked(facts, i, e.turn);
    r, a := AcceptedRequest(facts, i + 1, e.turn, t.connection.value);
    b :| 0 <= b < i + 1 && facts[b] == TurnResolvedConfig(e.turn, e.config);
    d :| 0 <= d < i + 1 && facts[d].TurnCompleted? && facts[d].turn == e.turn && CompletedOf(facts[d]) == e.completed;
    j, l := MetadataSources(facts, i, t.connection.value, e.thread);
  }

  /** The parts of a turn event are those of the entry just written. */
  lemma EmittedFrom(s: State, f: Fact, e: Event) returns (t: TurnState)
    requires e in Ingest(s, f).events && e.TurnEvent?
    ensures Write(s, f).Some? && Write(s, f).value.turn == e.turn && Write(s, f).value.entry == t
    ensures t.connection.Some? && t.config == Some(e.config) && t.completed == Some(e.completed)
    ensures t.connection.value in s.connections && e.client == s.connections[t.connection.value]
    ensures e.thread in s.threadMetadata && e.metadata == s.threadMetadata[e.thread]
  {
    EmittedWhenReady(s, f, e);
    t := Write(s, f).value.entry;
    SettlingKeepsMetadata(s, f);
  }

  lemma SettlingKeepsMetadata(s: State, f: Fact)
    requires Write(s, f).Some?
    ensures Bookkeeping(s, f).connections == s.connections && Bookkeeping(s, f).threadMetadata == s.threadMetadata
  {
  }

  lemma AcceptedRequest(facts: seq<Fact>, n: nat, u: string, c: nat) returns (r: nat, a: nat)
    requires n <= |facts| && ConnectionBacked(facts, n, u, c)
    ensures r < a < n && StartAccepted(facts, a, u) && facts[a].connection == c
    ensures Registers(facts[r], ConsumedKey(facts[a]).value) && facts[r].request.TurnStartRequest?
  {
    a :| 0 <= a < n && StartAccepted(facts, a, u) && facts[a].connection == c;
    var key := ConsumedKey(facts[a]).value;
    RequestsFollowFacts(facts, a, key);
    var q :| Outstanding(facts, a, key, q);
    r := q;
  }

  /** A connection's metadata and a thread's come from the latest Initialize and lifecycle response before. */
  lemma MetadataSources(facts: seq<Fact>, i: nat, c: nat, thread: string) returns (j: nat, l: nat)
    requires i <= |facts| && c in After(facts, i).connections && thread in After(facts, i).threadMetadata
    ensures LatestInitialize(facts, i, c, j) && After(facts, i).connections[c] == facts[j].metadata
    ensures LatestLifecycle(facts, i, thread, l)
    ensures After(facts, i).threadMetadata[thread] == LifecycleMetadata(facts[l])
  {
    ThreadsFollowFacts(facts, i, thread);
    ConnectionsFollowFacts(facts, i, c);
    var q :| LatestInitialize(facts, i, c, q) && After(facts, i).connections[c] == facts[q].metadata;
    var p :| ThreadFrom(facts, i, thread, After(facts, i), p);
    j, l := q, p;
  }
}
