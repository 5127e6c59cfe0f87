/** When a turn's event is emitted, how often, and what it counts. */
module ReducerTurns {
  import opened Common
  import opened Rpc
  import opened Reducer
  import opened ReducerHistory

  predicate IsTurnEvent(e: Event, u: string) { e.TurnEvent? && e.turn == u }

  /** The number of events of turn `u` that the `i`-th fact emits. */
  ghost function TurnEventsAt(facts: seq<Fact>, i: nat, u: string): nat
    requires i < |facts|
  {
    Count(Out(facts, i), e => IsTurnEvent(e, u))
  }

  lemma NoTurnEventCount(events: seq<Event>, u: string)
    requires forall e :: e in events ==> !IsTurnEvent(e, u)
    ensures Count(events, e => IsTurnEvent(e, u)) == 0
  {
    if events != [] {
      NoTurnEventCount(events[..|events| - 1], u);
    }
  }

  /** Whether this fact makes turn `u` ready and so emits its event. */
  predicate Emits(s: State, f: Fact, u: string) {
    && Write(s, f).Some? && Write(s, f).value.settles && Write(s, f).value.turn == u
    && Ready(Written(Bookkeeping(s, f), Write(s, f).value), u)
  }

  lemma EmitsCount(s: State, f: Fact, u: string)
    ensures Count(Ingest(s, f).events, e => IsTurnEvent(e, u)) == if Emits(s, f, u) then 1 else 0
  {
    if Write(s, f).Some? && Write(s, f).value.turn == u {
      EntryWritten(s, f);
      if !Emits(s, f, u) {
        NoTurnEventCount(Ingest(s, f).events, u);
      }
    } else {
      OneEntryWritten(s, f, u);
      NoTurnEventCount(Ingest(s, f).events, u);
    }
  }

  // ---- Exactly one event, on the last of the three facts ----

  /**
    The facts of one turn: its TurnStart response is accepted at `a`, its resolved config arrives at `b` and its
    completion at `d`, each once and in any order, and every fact of the turn names thread `t`. The thread's
    lifecycle response and the connection's Initialize come before the last of the three. All other facts are
    free, in number, kind and place.
   */
  ghost predicate OneTurn(facts: seq<Fact>, u: string, t: string, a: nat, b: nat, d: nat) {
    && a < |facts| && b < |facts| && d < |facts|
    && StartAccepted(facts, a, u) && AcceptedThread(After(facts, a), facts[a]) == t
    && facts[b].TurnResolvedConfig? && facts[b].turn == u && facts[b].config.thread == t
    && facts[d].TurnCompleted? && facts[d].turn == u
    && (forall i :: 0 <= i < |facts| && StartAccepted(facts, i, u) ==> i == a)
    && (forall i :: 0 <= i < |facts| && facts[i].TurnResolvedConfig? && facts[i].turn == u ==> i == b)
    && (forall i :: 0 <= i < |facts| && facts[i].TurnCompleted? && facts[i].turn == u ==> i == d)
    && (forall i :: 0 <= i < |facts| && facts[i].TurnTokenUsage? && facts[i].turn == u ==> facts[i].thread == t)
    && ConnectionSeen(facts, Last(a, b, d), facts[a].connection)
    && ThreadSeen(facts, Last(a, b, d), t)
  }

  /** The thread that an accepted TurnStart request asked for. */
  function AcceptedThread(s: State, f: Fact): string
    requires AcceptsStart(s, f)
  {
    s.requests[(f.connection, f.response.requestId)].thread
  }

  /** A TurnStart response is accepted exactly when a TurnStart request with its connection and id is outstanding. */
  lemma StartAcceptedIff(facts: seq<Fact>, a: nat, u: string)
    requires a < |facts| && facts[a].Response? && facts[a].response.TurnStartResponse? && facts[a].response.turn == u
    ensures var k := (facts[a].connection, facts[a].response.requestId);
            StartAccepted(facts, a, u) <==>
              exists r :: Outstanding(facts, a, k, r) && facts[r].request.TurnStartRequest?
    ensures StartAccepted(facts, a, u) ==>
              var k := (facts[a].connection, facts[a].response.requestId);
              exists r :: Outstanding(facts, a, k, r) && facts[r].request.TurnStartRequest?
                       && facts[r].request.thread == AcceptedThread(After(facts, a), facts[a])
  {
    RequestsFollowFacts(facts, a, (facts[a].connection, facts[a].response.requestId));
  }

  function Last(a: nat, b: nat, d: nat): (m: nat)
    ensures m == a || m == b || m == d
    ensures a <= m && b <= m && d <= m
  {
    if a >= b && a >= d then a else if b >= d then b else d
  }

  /** Before the last of the three facts nothing is emitted for the turn. */
  lemma NotBeforeLast(facts: seq<Fact>, u: string, t: string, a: nat, b: nat, d: nat, i: nat)
    requires OneTurn(facts, u, t, a, b, d) && i < Last(a, b, d)
    ensures !Emits(After(facts, i), facts[i], u)
  {
    var s, f := After(facts, i), facts[i];
    if Emits(s, f, u) {
      EntryWritten(s, f);
      var e := TurnEventOf(Written(Bookkeeping(s, f), Write(s, f).value), u);
      assert e in Out(facts, i);
      var _, _, _, _, _, _ := TurnEventBacked(facts, i, e);
    }
  }

  /** The parts of a turn entry that have arrived so far, all naming thread `t` and connection `c`. */
  predicate Gathered(e: TurnState, t: string, c: nat, started: bool, configured: bool, completed: bool) {
    && (started ==> e.connection == Some(c))
    && (started || configured ==> e.thread.Some? && e.images.Some?)
    && (configured ==> e.config.Some?)
    && (completed ==> e.completed.Some?)
    && (e.thread.Some? ==> e.thread.value == t)
  }

  predicate Configures(f: Fact, u: string) { f.TurnResolvedConfig? && f.turn == u }

  predicate Completes(f: Fact, u: string) { f.TurnCompleted? && f.turn == u }

  predicate Starts(s: State, f: Fact, u: string) { AcceptsStart(s, f) && f.response.turn == u }

  /** A write of the turn's entry keeps what was gathered and adds what the fact brings. */
  lemma GatheredByWrite(
    s: State, f: Fact, u: string, t: string, c: nat, started: bool, configured: bool, completed: bool)
    requires Write(s, f).Some? && Write(s, f).value.turn == u
    requires Gathered(Entry(s, u), t, c, started, configured, completed)
    requires Configures(f, u) ==> f.config.thread == t
    requires f.TurnTokenUsage? && f.turn == u ==> f.thread == t
    requires Starts(s, f, u) ==> f.connection == c && AcceptedThread(s, f) == t
    ensures Gathered(Write(s, f).value.entry, t, c,
                     started || Starts(s, f, u), configured || Configures(f, u), completed || Completes(f, u))
  {
  }

  lemma GatheredByTurnFact(facts: seq<Fact>, n: nat, u: string, t: string, a: nat, b: nat, d: nat)
    requires OneTurn(facts, u, t, a, b, d) && n < |facts|
    requires Write(After(facts, n), facts[n]).Some? && Write(After(facts, n), facts[n]).value.turn == u
    requires Gathered(Entry(After(facts, n), u), t, facts[a].connection, a < n, b < n, d < n)
    ensures Gathered(Write(After(facts, n), facts[n]).value.entry, t, facts[a].connection, a <= n, b <= n, d <= n)
  {
    var s, f := After(facts, n), facts[n];
    assert StartAccepted(facts, n, u) <==> Starts(s, f, u);
    GatheredByWrite(s, f, u, t, facts[a].connection, a < n, b < n, d < n);
  }

  /** Only these facts bring a part of the turn, and they all write its entry. */
  lemma TurnFactsWrite(s: State, f: Fact, u: string)
    requires Starts(s, f, u) || Configures(f, u) || Completes(f, u)
    ensures Write(s, f).Some? && Write(s, f).value.turn == u && Write(s, f).value.settles
  {
  }

  lemma KeptBeforeLast(facts: seq<Fact>, n: nat, u: string, t: string, a: nat, b: nat, d: nat)
    requires OneTurn(facts, u, t, a, b, d) && n < Last(a, b, d)
    requires Write(After(facts, n), facts[n]).Some? && Write(After(facts, n), facts[n]).value.turn == u
    ensures Entry(After(facts, n + 1), u) == Write(After(facts, n), facts[n]).value.entry
  {
    NotBeforeLast(facts, u, t, a, b, d, n);
    EntryWritten(After(facts, n), facts[n]);
  }

  lemma GatheredByOtherFact(facts: seq<Fact>, n: nat, u: string, t: string, a: nat, b: nat, d: nat)
    requires OneTurn(facts, u, t, a, b, d) && n < |facts|
    requires Write(After(facts, n), facts[n]).None? || Write(After(facts, n), facts[n]).value.turn != u
    requires Gathered(Entry(After(facts, n), u), t, facts[a].connection, a < n, b < n, d < n)
    ensures n != a && n != b && n != d
    ensures Gathered(Entry(After(facts, n + 1), u), t, facts[a].connection, a < n + 1, b < n + 1, d < n + 1)
  {
    var s, f := After(facts, n), facts[n];
    if n == a || n == b || n == d {
      TurnFactsWrite(s, f, u);
      assert false;
    }
    OneEntryWritten(s, f, u);
  }

  ghost predicate GatheredBy(facts: seq<Fact>, n: nat, u: string, t: string, a: nat, b: nat, d: nat)
    requires n <= |facts| && a < |facts| && facts[a].Response?
  {
    Gathered(Entry(After(facts, n), u), t, facts[a].connection, a < n, b < n, d < n)
  }

  lemma GatheredStep(facts: seq<Fact>, n: nat, u: string, t: string, a: nat, b: nat, d: nat)
    requires OneTurn(facts, u, t, a, b, d) && n < Last(a, b, d) && GatheredBy(facts, n, u, t, a, b, d)
    ensures GatheredBy(facts, n + 1, u, t, a, b, d)
  {
    var w := Write(After(facts, n), facts[n]);
    if w.Some? && w.value.turn == u {
      GatheredByTurnFact(facts, n, u, t, a, b, d);
      KeptBeforeLast(facts, n, u, t, a, b, d);
    } else {
      GatheredByOtherFact(facts, n, u, t, a, b, d);
    }
  }

  /** What has arrived before the last of the three is still in the turn's entry. */
  lemma {:induction false} GatheredUntilLast(facts: seq<Fact>, n: nat, u: string, t: string, a: nat, b: nat, d: nat)
    requires OneTurn(facts, u, t, a, b, d) && n <= Last(a, b, d)
    ensures GatheredBy(facts, n, u, t, a, b, d)
  {
    if n == 0 {
      assert After(facts, 0) == EMPTY;
    } else {
      GatheredUntilLast(facts, n - 1, u, t, a, b, d);
      GatheredStep(facts, n - 1, u, t, a, b, d);
      assert GatheredBy(facts, n, u, t, a, b, d);
    }
  }

  /** After the last of the three facts the turn has no resolved config, so it is never ready again. */
  lemma {:induction false} NotReadyAgain(facts: seq<Fact>, n: nat, u: string, t: string, a: nat, b: nat, d: nat)
    requires OneTurn(facts, u, t, a, b, d) && Last(a, b, d) < n <= |facts|
    requires Emits(After(facts, Last(a, b, d)), facts[Last(a, b, d)], u)
    ensures Entry(After(facts, n), u).config.None?
  {
    var s, f := After(facts, n - 1), facts[n - 1];
    if n - 1 == Last(a, b, d) {
      EntryWritten(s, f);
    } else {
      NotReadyAgain(facts, n - 1, u, t, a, b, d);
      StaysUnconfigured(s, f, u);
    }
  }

  lemma StaysUnconfigured(s: State, f: Fact, u: string)
    requires Entry(s, u).config.None? && !Configures(f, u)
    ensures Entry(Ingest(s, f).state, u).config.None?
  {
    if Write(s, f).Some? && Write(s, f).value.turn == u {
      WriteSources(s, f);
      EntryWritten(s, f);
    } else {
      OneEntryWritten(s, f, u);
    }
  }

  lemma EmitsOnLast(facts: seq<Fact>, u: string, t: string, a: nat, b: nat, d: nat)
    requires OneTurn(facts, u, t, a, b, d)
    ensures Emits(After(facts, Last(a, b, d)), facts[Last(a, b, d)], u)
  {
    var m := Last(a, b, d);
    var s, f := After(facts, m), facts[m];
    GatheredUntilLast(facts, m, u, t, a, b, d);
    TurnFactsWrite(s, f, u);
    GatheredByTurnFact(facts, m, u, t, a, b, d);
    ConnectionsFollowFacts(facts, m, facts[a].connection);
    ThreadsFollowFacts(facts, m, t);
  }

  /**
    In whatever order the three facts of a turn arrive, and whatever else arrives between them, exactly one
    event is emitted for the turn, by the last of the three.
   */
  lemma ExactlyOneTurnEvent(facts: seq<Fact>, u: string, t: string, a: nat, b: nat, d: nat, i: nat)
    requires OneTurn(facts, u, t, a, b, d) && i < |facts|
    ensures TurnEventsAt(facts, i, u) == if i == Last(a, b, d) then 1 else 0
  {
    var m := Last(a, b, d);
    EmitsCount(After(facts, i), facts[i], u);
    EmitsOnLast(facts, u, t, a, b, d);
    if i < m {
      NotBeforeLast(facts, u, t, a, b, d, i);
    } else if i > m {
      NotReadyAgain(facts, i, u, t, a, b, d);
      if Write(After(facts, i), facts[i]).Some? {
        WriteSources(After(facts, i), facts[i]);
      }
    }
  }

  // ---- Bounds over whole runs ----

  /** The number of events of turn `u` among the first `n` facts. */
  ghost function TurnEventsTotal(facts: seq<Fact>, n: nat, u: string): nat
    requires n <= |facts|
  {
    if n == 0 then 0 else TurnEventsTotal(facts, n - 1, u) + TurnEventsAt(facts, n - 1, u)
  }

  ghost function CompletionsTotal(facts: seq<Fact>, n: nat, u: string): nat
    requires n <= |facts|
  {
    if n == 0 then 0 else CompletionsTotal(facts, n - 1, u) + Bit(Completes(facts[n - 1], u))
  }

  ghost function ConfigsTotal(facts: seq<Fact>, n: nat, u: string): nat
    requires n <= |facts|
  {
    if n == 0 then 0 else ConfigsTotal(facts, n - 1, u) + Bit(Configures(facts[n - 1], u))
  }

  /** A completion or config is either still held in the turn's entry or spent on its event. */
  lemma PartsAreSpentOnce(s: State, f: Fact, u: string)
    ensures var s' := Ingest(s, f).state;
            && Bit(Entry(s', u).completed.Some?) + Bit(Emits(s, f, u))
               <= Bit(Entry(s, u).completed.Some?) + Bit(Completes(f, u))
            && Bit(Entry(s', u).config.Some?) + Bit(Emits(s, f, u))
               <= Bit(Entry(s, u).config.Some?) + Bit(Configures(f, u))
  {
    if Write(s, f).Some? && Write(s, f).value.turn == u {
      WriteSources(s, f);
      EntryWritten(s, f);
    } else {
      OneEntryWritten(s, f, u);
    }
  }

  /** Over every run a turn has no more events than completions, and no more than resolved configs. */
  lemma {:induction false} TurnEventsBounded(facts: seq<Fact>, n: nat, u: string)
    requires n <= |facts|
    ensures TurnEventsTotal(facts, n, u) + Bit(Entry(After(facts, n), u).completed.Some?)
            <= CompletionsTotal(facts, n, u)
    ensures TurnEventsTotal(facts, n, u) + Bit(Entry(After(facts, n), u).config.Some?) <= ConfigsTotal(facts, n, u)
  {
    if n == 0 {
    } else {
      TurnEventsBounded(facts, n - 1, u);
      EmitsCount(After(facts, n - 1), facts[n - 1], u);
      PartsAreSpentOnce(After(facts, n - 1), facts[n - 1], u);
    }
  }

  ghost function PendingSteers(s: State): set<Key> {
    set k | k in s.requests && s.requests[k].PendingSteer?
  }

  predicate IsSteerRequest(f: Fact) { f.Request? && f.request.TurnSteerRequest? }

  ghost function SteerEventsAt(s: State, f: Fact): nat {
    Count(Ingest(s, f).events, (e: Event) => e.SteerEvent?)
  }

  ghost function SteerEventsTotal(facts: seq<Fact>, n: nat): nat
    requires n <= |facts|
  {
    if n == 0 then 0 else SteerEventsTotal(facts, n - 1) + SteerEventsAt(After(facts, n - 1), facts[n - 1])
  }

  ghost function SteerRequestsTotal(facts: seq<Fact>, n: nat): nat
    requires n <= |facts|
  {
    if n == 0 then 0 else SteerRequestsTotal(facts, n - 1) + Bit(IsSteerRequest(facts[n - 1]))
  }

  lemma {:induction false} NoSteerEventCount(events: seq<Event>)
    requires forall e :: e in events ==> !e.SteerEvent?
    ensures Count(events, (e: Event) => e.SteerEvent?) == 0
  {
    if events == [] {
    } else {
      NoSteerEventCount(events[..|events| - 1]);
    }
  }

  /** Only a response or error that matches a pending steer emits a steer event, and it emits at most one. */
  lemma SteerEventsAtMost(s: State, f: Fact)
    ensures SteerEventsAt(s, f) <= Bit(AcceptsSteer(s, f) || RejectsSteer(s, f))
  {
    if AcceptsSteer(s, f) || RejectsSteer(s, f) {
      assert |Ingest(s, f).events| <= 1;
    } else {
      NoSteerEventCount(Ingest(s, f).events);
    }
  }

  lemma PendingSteersChange(s: State, f: Fact)
    ensures var before, after := PendingSteers(s), PendingSteers(Bookkeeping(s, f));
            if IsSteerRequest(f) then after == before + {(f.connection, f.requestId)}
            else if AcceptsSteer(s, f) || RejectsSteer(s, f) then
              ConsumedKey(f).value in before && after == before - {ConsumedKey(f).value}
            else after <= before
  {
  }

  lemma PendingSteersStep(s: State, f: Fact)
    ensures |PendingSteers(Ingest(s, f).state)| + Bit(AcceptsSteer(s, f) || RejectsSteer(s, f))
            <= |PendingSteers(s)| + Bit(IsSteerRequest(f))
  {
    PendingSteersChange(s, f);
    assert PendingSteers(Ingest(s, f).state) == PendingSteers(Bookkeeping(s, f)) by {
      OnlyBookkeeping(s, f);
    }
    if !IsSteerRequest(f) && !AcceptsSteer(s, f) && !RejectsSteer(s, f) {
      SubsetSize(PendingSteers(Bookkeeping(s, f)), PendingSteers(s));
    }
  }

  lemma SteerStep(s: State, f: Fact)
    ensures SteerEventsAt(s, f) + |PendingSteers(Ingest(s, f).state)| <= |PendingSteers(s)| + Bit(IsSteerRequest(f))
  {
    SteerEventsAtMost(s, f);
    PendingSteersStep(s, f);
  }

  /** Over every run there are no more steer events than steer requests: each pending steer is spent at most once. */
  lemma {:induction false} SteerEventsBounded(facts: seq<Fact>, n: nat)
    requires n <= |facts|
    ensures SteerEventsTotal(facts, n) + |PendingSteers(After(facts, n))| <= SteerRequestsTotal(facts, n)
  {
    if n == 0 {
    } else {
      SteerEventsBounded(facts, n - 1);
      SteerStep(After(facts, n - 1), facts[n - 1]);
    }
  }

  // ---- Steer counts ----

  ghost predicate SteerMatched(facts: seq<Fact>, i: nat, u: string)
    requires i < |facts|
  {
    AcceptsSteer(After(facts, i), facts[i]) && facts[i].response.turn == u
  }

  /** The steer responses for turn `u` matched by facts `k, ..., n - 1`. */
  ghost function MatchedSteers(facts: seq<Fact>, k: nat, n: nat, u: string): nat
    requires k <= n <= |facts|
  {
    if n == k then 0 else MatchedSteers(facts, k, n - 1, u) + Bit(SteerMatched(facts, n - 1, u))
  }

  /** The entry of turn `u` was created by fact `k` and has been there since. */
  ghost predicate CreatedBy(facts: seq<Fact>, k: nat, n: nat, u: string)
    requires n <= |facts|
  {
    k < n && u !in After(facts, k).turns && forall j :: k < j <= n ==> u in After(facts, j).turns
  }

  lemma SteerCountStep(s: State, f: Fact, u: string)
    requires u in Ingest(s, f).state.turns
    ensures Ingest(s, f).state.turns[u].steerCount
            == Entry(s, u).steerCount + Bit(u in s.turns && AcceptsSteer(s, f) && f.response.turn == u)
  {
    if Write(s, f).Some? && Write(s, f).value.turn == u {
      EntryWritten(s, f);
    } else {
      OneEntryWritten(s, f, u);
    }
  }

  /** An entry's steer count is the number of steer responses matched for its turn since it was created. */
  lemma {:induction false} SteerCountIsMatches(facts: seq<Fact>, k: nat, n: nat, u: string)
    requires n <= |facts| && CreatedBy(facts, k, n, u)
    ensures After(facts, n).turns[u].steerCount == MatchedSteers(facts, k + 1, n, u)
  {
    assert u in After(facts, n).turns;
    SteerCountStep(After(facts, n - 1), facts[n - 1], u);
    if n > k + 1 {
      SteerCountIsMatches(facts, k, n - 1, u);
    }
  }

  lemma CreationPoint(facts: seq<Fact>, n: nat, u: string) returns (k: nat)
    requires n <= |facts| && u in After(facts, n).turns
    ensures CreatedBy(facts, k, n, u)
  {
    k := n - 1;
    while u in After(facts, k).turns
      invariant 0 <= k < n
      invariant forall j :: k < j <= n ==> u in After(facts, j).turns
      decreases k
    {
      k := k - 1;
    }
  }

  /** No single fact brings all three parts, so a turn that is emitted had an entry before. */
  lemma EmittedHadEntry(s: State, f: Fact, u: string)
    requires Emits(s, f, u)
    ensures u in s.turns
    ensures TurnEventOf(Written(Bookkeeping(s, f), Write(s, f).value), u).steerCount == s.turns[u].steerCount
  {
    WriteSources(s, f);
  }

  /** An emitted steer count is the number of steer responses matched since the turn's entry was created. */
  lemma EmittedSteerCount(facts: seq<Fact>, i: nat, e: Event) returns (k: nat)
    requires i < |facts| && e in Out(facts, i) && e.TurnEvent?
    ensures CreatedBy(facts, k, i, e.turn) && e.steerCount == MatchedSteers(facts, k + 1, i, e.turn)
  {
    EmittedWhenReady(After(facts, i), facts[i], e);
    EmittedHadEntry(After(facts, i), facts[i], e.turn);
    k := CreationPoint(facts, i, e.turn);
    SteerCountIsMatches(facts, k, i, e.turn);
  }
}
