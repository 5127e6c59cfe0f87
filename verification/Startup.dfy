/** MCP server startup: concurrent tasks, a cancellation that may come at any time, and one summary. */
module Startup {
  import opened Common

  datatype Outcome = Ready | Cancelled | Failed(error: string)

  /** A server's startup: announced and spawned, its client resolved, the token checked, the status reported. */
  datatype Phase =
    | Waiting
    | Spawned
    | Resolved(outcome: Outcome)
    | Decided(outcome: Outcome)
    | Reported(outcome: Outcome)

  datatype Summary = Summary(ready: seq<string>, failed: seq<(string, string)>, cancelled: seq<string>)

  datatype Event = Starting(server: string) | Status(server: string, outcome: Outcome) | Complete(summary: Summary)

  /** `cancelled` holds the servers whose cancellation token has fired. */
  datatype State = State(phases: map<string, Phase>, cancelled: set<string>, completed: bool, log: seq<Event>)

  /**
    One atomic step of some task. `CancelAll` fires the manager's token and so every server's, also those not
    created yet; `ShutDown` fires one server's token; `Finish` is the summary, its argument the order in
    which the servers joined.
   */
  datatype Step =
    | Announce(server: string)
    | Resolve(server: string, outcome: Outcome)
    | Check(server: string)
    | Report(server: string)
    | CancelAll
    | ShutDown(server: string)
    | Finish(order: seq<string>)

  function Initial(enabled: set<string>): State {
    State(map s | s in enabled :: Waiting, {}, false, [])
  }

  predicate AllReported(st: State) {
    forall s :: s in st.phases ==> st.phases[s].Reported?
  }

  ghost predicate Enabled(st: State, step: Step) {
    match step
    case Announce(s) => s in st.phases && st.phases[s].Waiting?
    case Resolve(s, o) => s in st.phases && st.phases[s].Spawned? && (o.Cancelled? ==> s in st.cancelled)
    case Check(s) => s in st.phases && st.phases[s].Resolved?
    case Report(s) => s in st.phases && st.phases[s].Decided?
    case CancelAll => true
    case ShutDown(s) => s in st.phases && !st.phases[s].Waiting?
    case Finish(order) => AllReported(st) && !st.completed && Distinct(order) && Elements(order) == st.phases.Keys
  }

  /** The summary loop over the joined outcomes. */
  function Summarize(outcomes: seq<(string, Outcome)>): Summary {
    if outcomes == [] then Summary([], [], [])
    else
      var rest, (s, o) := Summarize(outcomes[..|outcomes| - 1]), outcomes[|outcomes| - 1];
      match o
      case Ready => rest.(ready := rest.ready + [s])
      case Cancelled => rest.(cancelled := rest.cancelled + [s])
      case Failed(error) => rest.(failed := rest.failed + [(s, error)])
  }

  method SummarizeOutcomes(outcomes: seq<(string, Outcome)>) returns (summary: Summary)
    ensures summary == Summarize(outcomes)
  {
    var ready: seq<string>, failed: seq<(string, string)>, cancelled: seq<string> := [], [], [];
    for i := 0 to |outcomes|
      invariant Summary(ready, failed, cancelled) == Summarize(outcomes[..i])
    {
      assert outcomes[..i + 1][..i] == outcomes[..i];
      match outcomes[i].1 {
        case Ready => ready := ready + [outcomes[i].0];
        case Cancelled => cancelled := cancelled + [outcomes[i].0];
        case Failed(error) => failed := failed + [(outcomes[i].0, error)];
      }
    }
    assert outcomes[..|outcomes|] == outcomes;
    summary := Summary(ready, failed, cancelled);
  }

  ghost function Outcomes(st: State, order: seq<string>): (r: seq<(string, Outcome)>)
    requires AllReported(st) && Elements(order) <= st.phases.Keys
    ensures |r| == |order| && forall i :: 0 <= i < |order| ==> r[i] == (order[i], st.phases[order[i]].outcome)
  {
    seq(|order|, i requires 0 <= i < |order| =>
      assert order[i] in Elements(order); (order[i], st.phases[order[i]].outcome))
  }

  ghost function Take(st: State, step: Step): State
    requires Enabled(st, step)
  {
    match step
    case Announce(s) => st.(phases := st.phases[s := Spawned], log := st.log + [Starting(s)])
    case Resolve(s, o) => st.(phases := st.phases[s := Resolved(o)])
    case Check(s) =>
      var o := if s in st.cancelled then Cancelled else st.phases[s].outcome;
      st.(phases := st.phases[s := Decided(o)])
    case Report(s) =>
      var o := st.phases[s].outcome;
      st.(phases := st.phases[s := Reported(o)], log := st.log + [Status(s, o)])
    case CancelAll => st.(cancelled := st.phases.Keys)
    case ShutDown(s) => st.(cancelled := st.cancelled + {s})
    case Finish(order) => st.(completed := true, log := st.log + [Complete(Summarize(Outcomes(st, order)))])
  }

  /** The state after a list of steps, if each is enabled when its turn comes. */
  ghost function Exec(enabled: set<string>, steps: seq<Step>): Option<State> {
    if steps == [] then Some(Initial(enabled))
    else
      match Exec(enabled, steps[..|steps| - 1])
      case None => None
      case Some(st) =>
        if Enabled(st, steps[|steps| - 1]) then Some(Take(st, steps[|steps| - 1])) else None
  }

  // ---- What every reachable state keeps ----

  predicate IsStarting(e: Event, s: string) { e == Starting(s) }

  predicate IsStatus(e: Event, s: string) { e.Status? && e.server == s }

  ghost function Starts(st: State, s: string): nat { Count(st.log, e => IsStarting(e, s)) }

  ghost function Statuses(st: State, s: string): nat { Count(st.log, e => IsStatus(e, s)) }

  predicate Announced(st: State, s: string) { s in st.phases && !st.phases[s].Waiting? }

  function ReportOf(st: State, s: string): Option<Outcome> {
    if s in st.phases && st.phases[s].Reported? then Some(st.phases[s].outcome) else None
  }

  ghost predicate StartsFirst(log: seq<Event>, s: string) {
    forall i :: 0 <= i < |log| && IsStatus(log[i], s) ==> Starting(s) in log[..i]
  }

  /** What the log says about one server agrees with its phase. */
  ghost predicate ServerLogged(st: State, s: string) {
    && Starts(st, s) == Bit(Announced(st, s))
    && Statuses(st, s) == Bit(ReportOf(st, s).Some?)
    && (ReportOf(st, s).Some? ==> Status(s, ReportOf(st, s).value) in st.log)
    && (Announced(st, s) ==> Starting(s) in st.log)
    && StartsFirst(st.log, s)
  }

  lemma LoggedInitially(enabled: set<string>, s: string)
    ensures ServerLogged(Initial(enabled), s)
  {
  }

  lemma AppendCounts(log: seq<Event>, e: Event, s: string)
    ensures Count(log + [e], x => IsStarting(x, s)) == Count(log, x => IsStarting(x, s)) + Bit(IsStarting(e, s))
    ensures Count(log + [e], x => IsStatus(x, s)) == Count(log, x => IsStatus(x, s)) + Bit(IsStatus(e, s))
  {
    assert (log + [e])[..|log|] == log;
  }

  lemma StartsBefore(log: seq<Event>, e: Event, s: string)
    requires StartsFirst(log, s)
    requires IsStatus(e, s) ==> Starting(s) in log
    ensures StartsFirst(log + [e], s)
  {
    forall i | 0 <= i < |log + [e]| && IsStatus((log + [e])[i], s) ensures Starting(s) in (log + [e])[..i] {
      assert (log + [e])[..i] == if i < |log| then log[..i] else log;
    }
  }

  /** What one step tells the log about one server. */
  lemma StepLogs(st: State, step: Step, s: string) returns (added: seq<Event>)
    requires Enabled(st, step)
    ensures Take(st, step).log == st.log + added && |added| <= 1
    ensures Announced(Take(st, step), s) == (Announced(st, s) || added == [Starting(s)])
    ensures added == [Starting(s)] ==> !Announced(st, s)
    ensures added != [] && IsStatus(added[0], s) ==>
      Announced(st, s) && ReportOf(st, s).None? && ReportOf(Take(st, step), s) == Some(added[0].outcome)
    ensures added == [] || !IsStatus(added[0], s) ==> ReportOf(Take(st, step), s) == ReportOf(st, s)
  {
    match step {
      case Announce(t) => added := [Starting(t)];
      case Report(t) => added := [Status(t, st.phases[t].outcome)];
      case Finish(order) => added := [Complete(Summarize(Outcomes(st, order)))];
      case _ => added := [];
    }
  }

  lemma LoggedStep(st: State, step: Step, s: string)
    requires Enabled(st, step) && ServerLogged(st, s)
    ensures ServerLogged(Take(st, step), s)
  {
    var added := StepLogs(st, step, s);
    if added == [] {
      assert st.log + added == st.log;
    } else {
      assert added == [added[0]];
      AppendCounts(st.log, added[0], s);
      StartsBefore(st.log, added[0], s);
    }
  }

  /** What the summary loop leaves in its three lists, for outcomes of different servers. */
  lemma {:induction false} SummarizeFiles(outcomes: seq<(string, Outcome)>)
    requires forall i, j :: 0 <= i < j < |outcomes| ==> outcomes[i].0 != outcomes[j].0
    ensures var r := Summarize(outcomes);
      && |r.ready| + |r.failed| + |r.cancelled| == |outcomes|
      && Distinct(r.ready) && Distinct(r.failed) && Distinct(r.cancelled)
      && (forall s :: s in r.ready <==> (s, Ready) in outcomes)
      && (forall s :: s in r.cancelled <==> (s, Cancelled) in outcomes)
      && (forall s, e :: (s, e) in r.failed <==> (s, Failed(e)) in outcomes)
  {
    if outcomes == [] {
    } else {
      var front, last := outcomes[..|outcomes| - 1], outcomes[|outcomes| - 1];
      SummarizeFiles(front);
      assert outcomes == front + [last];
      assert forall o :: (last.0, o) !in front;
    }
  }

  /** The three lists share out the servers, each under the outcome it reported. */
  ghost predicate Partitions(summary: Summary, st: State) {
    && |summary.ready| + |summary.failed| + |summary.cancelled| == |st.phases|
    && Distinct(summary.ready) && Distinct(summary.failed) && Distinct(summary.cancelled)
    && (forall s :: s in summary.ready <==> s in st.phases && st.phases[s] == Reported(Ready))
    && (forall s :: s in summary.cancelled <==> s in st.phases && st.phases[s] == Reported(Cancelled))
    && (forall s, e :: (s, e) in summary.failed <==> s in st.phases && st.phases[s] == Reported(Failed(e)))
  }

  lemma FinishPartitions(st: State, order: seq<string>)
    requires AllReported(st) && Distinct(order) && Elements(order) == st.phases.Keys
    ensures Partitions(Summarize(Outcomes(st, order)), st)
  {
    var outcomes := Outcomes(st, order);
    SummarizeFiles(outcomes);
    DistinctCount(order);
    assert |st.phases| == |st.phases.Keys|;
    forall s, o ensures (s, o) in outcomes <==> s in st.phases && st.phases[s] == Reported(o) {
      if s in st.phases && st.phases[s] == Reported(o) {
        assert s in Elements(order);
        var i :| 0 <= i < |order| && order[i] == s;
        assert outcomes[i] == (s, o);
      }
    }
  }

  /** The summary is emitted once, last, after every server has reported, and shares the servers out. */
  ghost predicate CompleteIsLast(st: State) {
    && (st.completed ==>
      AllReported(st) && st.log != [] && st.log[|st.log| - 1].Complete? && Partitions(st.log[|st.log| - 1].summary, st))
    && forall i :: 0 <= i < |st.log| && st.log[i].Complete? ==> st.completed && i == |st.log| - 1
  }

  lemma CompleteStep(st: State, step: Step)
    requires Enabled(st, step) && CompleteIsLast(st)
    ensures CompleteIsLast(Take(st, step))
  {
    if step.Finish? {
      FinishPartitions(st, step.order);
    }
  }

  ghost predicate Reached(enabled: set<string>, steps: seq<Step>, st: State) {
    Exec(enabled, steps) == Some(st)
  }

  /**
    In every interleaving, whatever the cancellation point: a server is announced at most once, reports at most
    one terminal status, never before it was announced, and the summary comes once and after every status.
   */
  lemma {:induction false} EveryRunLogs(enabled: set<string>, steps: seq<Step>, st: State)
    requires Reached(enabled, steps, st)
    ensures st.phases.Keys == enabled
    ensures forall s :: ServerLogged(st, s)
    ensures CompleteIsLast(st)
  {
    if steps == [] {
      forall s ensures ServerLogged(st, s) { LoggedInitially(enabled, s); }
    } else {
      var before := Exec(enabled, steps[..|steps| - 1]).value;
      EveryRunLogs(enabled, steps[..|steps| - 1], before);
      forall s ensures ServerLogged(st, s) { LoggedStep(before, steps[|steps| - 1], s); }
      CompleteStep(before, steps[|steps| - 1]);
    }
  }

  /**
    Once the summary is out, every enabled server was announced once and then reported once, and the summary's
    three lists share out the enabled servers exactly as their reports say.
   */
  lemma SummaryAgrees(enabled: set<string>, steps: seq<Step>, st: State)
    requires Reached(enabled, steps, st) && st.completed
    ensures forall s :: s in enabled ==> Starts(st, s) == 1 && Statuses(st, s) == 1
    ensures forall s :: s !in enabled ==> Starts(st, s) == 0 && Statuses(st, s) == 0
    ensures st.log != [] && st.log[|st.log| - 1].Complete?
    ensures var r := st.log[|st.log| - 1].summary;
      && |r.ready| + |r.failed| + |r.cancelled| == |enabled|
      && Distinct(r.ready) && Distinct(r.failed) && Distinct(r.cancelled)
      && (forall s :: s in r.ready <==> Status(s, Ready) in st.log)
      && (forall s :: s in r.cancelled <==> Status(s, Cancelled) in st.log)
      && (forall s, e :: (s, e) in r.failed <==> Status(s, Failed(e)) in st.log)
  {
    EveryRunLogs(enabled, steps, st);
    assert |st.phases| == |st.phases.Keys|;
    forall s
      ensures s in enabled ==> Starts(st, s) == 1 && Statuses(st, s) == 1
      ensures s !in enabled ==> Starts(st, s) == 0 && Statuses(st, s) == 0
    {
      assert ServerLogged(st, s);
    }
    forall s, o ensures Status(s, o) in st.log <==> s in st.phases && st.phases[s] == Reported(o) {
      LoggedIsReported(st, s, o);
    }
  }

  /** A logged status is the server's one report. */
  lemma LoggedIsReported(st: State, s: string, o: Outcome)
    requires ServerLogged(st, s)
    ensures Status(s, o) in st.log <==> s in st.phases && st.phases[s] == Reported(o)
  {
    if Status(s, o) in st.log {
      CountedOnce(st.log, s, o);
      if s in st.phases && st.phases[s].outcome != o {
        CountedTwice(st.log, s, o, st.phases[s].outcome);
      }
    }
  }

  lemma {:induction false} CountedOnce(log: seq<Event>, s: string, o: Outcome)
    requires Status(s, o) in log
    ensures Count(log, e => IsStatus(e, s)) >= 1
  {
    if log[|log| - 1] != Status(s, o) {
      CountedOnce(log[..|log| - 1], s, o);
    }
  }

  lemma {:induction false} CountedTwice(log: seq<Event>, s: string, o: Outcome, o': Outcome)
    requires o != o' && Status(s, o) in log && Status(s, o') in log
    ensures Count(log, e => IsStatus(e, s)) >= 2
  {
    var front, last := log[..|log| - 1], log[|log| - 1];
    if last == Status(s, o) {
      CountedOnce(front, s, o');
    } else if last == Status(s, o') {
      CountedOnce(front, s, o);
    } else {
      CountedTwice(front, s, o, o');
    }
  }

  // ---- Cancellation ----

  ghost predicate Doomed(st: State, s: string) {
    s in st.phases && s in st.cancelled &&
    (st.phases[s].Decided? || st.phases[s].Reported? ==> st.phases[s].outcome.Cancelled?)
  }

  /** A token that fires before a server's outcome is decided makes that server report Cancelled. */
  lemma {:induction false} CancellationWins(
    enabled: set<string>, steps: seq<Step>, n: nat, before: State, st: State, s: string)
    requires n <= |steps| && Reached(enabled, steps[..n], before) && Reached(enabled, steps, st)
    requires Doomed(before, s)
    ensures Doomed(st, s)
    decreases |steps|
  {
    if n == |steps| {
      assert steps[..n] == steps;
    } else {
      var front := steps[..|steps| - 1];
      assert front[..n] == steps[..n];
      CancellationWins(enabled, front, n, before, Exec(enabled, front).value, s);
    }
  }

  /** And only then: no server reports Cancelled whose token has not fired. */
  lemma {:induction false} CancelledWasCancelled(enabled: set<string>, steps: seq<Step>, st: State, s: string)
    requires Reached(enabled, steps, st) && s in st.phases
    requires !st.phases[s].Waiting? && !st.phases[s].Spawned? && st.phases[s].outcome.Cancelled?
    ensures s in st.cancelled
  {
    var front := steps[..|steps| - 1];
    var before := Exec(enabled, front).value;
    if before.phases[s].Resolved? || before.phases[s].Decided? || before.phases[s].Reported? {
      if before.phases[s].outcome.Cancelled? {
        CancelledWasCancelled(enabled, front, before, s);
      }
    }
  }

  // ---- What decides a report ----

  predicate Fires(step: Step, s: string) { step == CancelAll || step == ShutDown(s) }

  /** The server's token fires among the first `n` steps. */
  ghost predicate FiredBy(steps: seq<Step>, n: nat, s: string)
    requires n <= |steps|
  {
    exists i :: 0 <= i < n && Fires(steps[i], s)
  }

  /** The step checks the server's token, or resolves its client. */
  predicate Decisive(step: Step, s: string, check: bool) {
    if check then step == Check(s) else step.Resolve? && step.server == s
  }

  ghost predicate NoneIs(steps: seq<Step>, s: string, check: bool) {
    forall i :: 0 <= i < |steps| ==> !Decisive(steps[i], s, check)
  }

  ghost predicate OnlyAt(steps: seq<Step>, s: string, check: bool, i: int) {
    && 0 <= i < |steps| && Decisive(steps[i], s, check)
    && forall j :: 0 <= j < |steps| && Decisive(steps[j], s, check) ==> j == i
  }

  /** The server's client resolves at step `i` and only there, and its token is checked later, at `c` and only there. */
  ghost predicate DecidedAt(steps: seq<Step>, s: string, i: int, c: int) {
    OnlyAt(steps, s, false, i) && OnlyAt(steps, s, true, c) && i < c
  }

  /** A token that has fired by then overrides what the client came to. */
  ghost function Verdict(steps: seq<Step>, s: string, i: int, c: int): Outcome
    requires DecidedAt(steps, s, i, c)
  {
    if FiredBy(steps, c, s) then Cancelled else steps[i].outcome
  }

  ghost predicate Explained(steps: seq<Step>, s: string, p: Phase) {
    match p
    case Waiting => NoneIs(steps, s, false) && NoneIs(steps, s, true)
    case Spawned => NoneIs(steps, s, false) && NoneIs(steps, s, true)
    case Resolved(o) =>
      NoneIs(steps, s, true) && exists i :: OnlyAt(steps, s, false, i) && steps[i].outcome == o
    case Decided(o) => exists i, c :: DecidedAt(steps, s, i, c) && Verdict(steps, s, i, c) == o
    case Reported(o) => exists i, c :: DecidedAt(steps, s, i, c) && Verdict(steps, s, i, c) == o
  }

  lemma {:induction false} CancelledIffFired(enabled: set<string>, steps: seq<Step>, st: State, s: string)
    requires Reached(enabled, steps, st) && s in st.phases
    ensures s in st.cancelled <==> FiredBy(steps, |steps|, s)
  {
    if steps == [] {
    } else {
      var n := |steps| - 1;
      var front := steps[..n];
      CancelledIffFired(enabled, front, Exec(enabled, front).value, s);
      FiredByFront(steps, n, n, s);
      assert Fires(steps[n], s) ==> FiredBy(steps, |steps|, s);
    }
  }

  lemma FiredByFront(steps: seq<Step>, m: nat, n: nat, s: string)
    requires n <= m <= |steps|
    ensures FiredBy(steps[..m], n, s) <==> FiredBy(steps, n, s)
  {
    if FiredBy(steps, n, s) {
      var i :| 0 <= i < n && Fires(steps[i], s);
      assert Fires(steps[..m][i], s);
    }
  }

  /** One more step keeps the place of a decisive one, or is the first. */
  lemma OneMore(front: seq<Step>, last: Step, s: string, check: bool)
    ensures NoneIs(front, s, check) && !Decisive(last, s, check) ==> NoneIs(front + [last], s, check)
    ensures NoneIs(front, s, check) && Decisive(last, s, check) ==> OnlyAt(front + [last], s, check, |front|)
    ensures forall i :: OnlyAt(front, s, check, i) && !Decisive(last, s, check) ==> OnlyAt(front + [last], s, check, i)
  {
  }

  lemma StaysDecided(front: seq<Step>, last: Step, s: string, o: Outcome)
    requires exists i, c :: DecidedAt(front, s, i, c) && Verdict(front, s, i, c) == o
    requires !Decisive(last, s, false) && !Decisive(last, s, true)
    ensures exists i, c :: DecidedAt(front + [last], s, i, c) && Verdict(front + [last], s, i, c) == o
  {
    var i, c :| DecidedAt(front, s, i, c) && Verdict(front, s, i, c) == o;
    OneMore(front, last, s, false);
    OneMore(front, last, s, true);
    var steps := front + [last];
    assert steps[..|front|] == front;
    FiredByFront(steps, |front|, c, s);
    assert DecidedAt(steps, s, i, c) && Verdict(steps, s, i, c) == o;
  }

  lemma CheckDecides(front: seq<Step>, s: string, o: Outcome)
    requires Explained(front, s, Resolved(o))
    ensures Explained(front + [Check(s)], s, Decided(if FiredBy(front, |front|, s) then Cancelled else o))
  {
    var i :| OnlyAt(front, s, false, i) && front[i].outcome == o;
    var steps, c := front + [Check(s)], |front|;
    OneMore(front, Check(s), s, false);
    OneMore(front, Check(s), s, true);
    assert steps[..c] == front;
    FiredByFront(steps, c, c, s);
    assert DecidedAt(steps, s, i, c);
  }

  lemma ExplainedStep(front: seq<Step>, st: State, last: Step, s: string)
    requires Enabled(st, last) && s in st.phases && Explained(front, s, st.phases[s])
    requires s in st.cancelled <==> FiredBy(front, |front|, s)
    ensures Explained(front + [last], s, Take(st, last).phases[s])
  {
    OneMore(front, last, s, false);
    OneMore(front, last, s, true);
    if last == Check(s) {
      CheckDecides(front, s, st.phases[s].outcome);
    } else if last.Resolve? && last.server == s {
      assert OnlyAt(front + [last], s, false, |front|);
    } else if st.phases[s].Decided? || st.phases[s].Reported? {
      StaysDecided(front, last, s, st.phases[s].outcome);
    } else if st.phases[s].Resolved? {
      var i :| OnlyAt(front, s, false, i) && front[i].outcome == st.phases[s].outcome;
      assert OnlyAt(front + [last], s, false, i);
    }
  }

  lemma {:induction false} PhasesExplained(enabled: set<string>, steps: seq<Step>, st: State, s: string)
    requires Reached(enabled, steps, st) && s in st.phases
    ensures Explained(steps, s, st.phases[s])
  {
    if steps == [] {
    } else {
      var front := steps[..|steps| - 1];
      var before := Exec(enabled, front).value;
      PhasesExplained(enabled, front, before, s);
      CancelledIffFired(enabled, front, before, s);
      ExplainedStep(front, before, steps[|steps| - 1], s);
      assert front + [steps[|steps| - 1]] == steps;
    }
  }

  /**
    In every interleaving a server that reported was resolved once and checked once after that, and reported Cancelled
    if its token had fired by the check, and otherwise exactly what its client came to.
   */
  lemma ReportExplained(enabled: set<string>, steps: seq<Step>, st: State, s: string, o: Outcome)
    returns (i: nat, c: nat)
    requires Reached(enabled, steps, st) && Status(s, o) in st.log
    ensures DecidedAt(steps, s, i, c)
    ensures o == if FiredBy(steps, c, s) then Cancelled else steps[i].outcome
  {
    EveryRunLogs(enabled, steps, st);
    assert ServerLogged(st, s);
    LoggedIsReported(st, s, o);
    PhasesExplained(enabled, steps, st, s);
    var a, b :| DecidedAt(steps, s, a, b) && Verdict(steps, s, a, b) == o;
    i, c := a, b;
  }

  /** So the summary lists a server by its own steps: cancelled in time, or else as its client came out. */
  lemma SummaryExplained(enabled: set<string>, steps: seq<Step>, st: State, s: string) returns (i: nat, c: nat)
    requires Reached(enabled, steps, st) && st.completed && s in enabled
    ensures DecidedAt(steps, s, i, c) && st.log != [] && st.log[|st.log| - 1].Complete?
    ensures var r := st.log[|st.log| - 1].summary;
      && (s in r.cancelled <==> FiredBy(steps, c, s))
      && (s in r.ready <==> steps[i].outcome == Ready && !FiredBy(steps, c, s))
      && forall e :: (s, e) in r.failed <==> steps[i].outcome == Failed(e) && !FiredBy(steps, c, s)
  {
    EveryRunLogs(enabled, steps, st);
    SummaryAgrees(enabled, steps, st);
    assert ServerLogged(st, s);
    var o := st.phases[s].outcome;
    i, c := ReportExplained(enabled, steps, st, s, o);
    forall o' ensures Status(s, o') in st.log <==> o' == o { LoggedIsReported(st, s, o'); }
    ResolvedCancelledFired(enabled, steps, st, s, i, c);
  }

  /** A client comes to Cancelled only after the token has fired. */
  lemma ResolvedCancelledFired(enabled: set<string>, steps: seq<Step>, st: State, s: string, i: nat, c: nat)
    requires Reached(enabled, steps, st) && DecidedAt(steps, s, i, c) && s in enabled
    ensures steps[i].outcome == Cancelled ==> FiredBy(steps, c, s)
  {
    if steps[i].outcome == Cancelled {
      var before := ReachedBefore(enabled, steps, st, i);
      CancelledIffFired(enabled, steps[..i], before, s);
      FiredByFront(steps, i, i, s);
    }
  }

  lemma {:induction false} ReachedBefore(enabled: set<string>, steps: seq<Step>, st: State, i: nat)
    returns (before: State)
    requires Reached(enabled, steps, st) && i < |steps|
    ensures Reached(enabled, steps[..i], before) && Enabled(before, steps[i])
  {
    var n := |steps| - 1;
    var front := steps[..n];
    if i == n {
      before := Exec(enabled, front).value;
    } else {
      before := ReachedBefore(enabled, front, Exec(enabled, front).value, i);
      assert front[..i] == steps[..i];
    }
  }

  // ---- Progress ----

  function Rank(p: Phase): nat {
    match p
    case Waiting => 0
    case Spawned => 1
    case Resolved(_) => 2
    case Decided(_) => 3
    case Reported(_) => 4
  }

  predicate Advances(step: Step, s: string) {
    step == Announce(s) || step == Check(s) || step == Report(s) || (step.Resolve? && step.server == s)
  }

  /** Apart from cancellations, a run takes at most four steps for each server and one for the summary. */
  lemma {:induction false} StepsTaken(enabled: set<string>, steps: seq<Step>, st: State, s: string)
    requires Reached(enabled, steps, st) && s in st.phases
    ensures Count(steps, step => Advances(step, s)) == Rank(st.phases[s])
    ensures Count(steps, (step: Step) => step.Finish?) == Bit(st.completed)
  {
    if steps == [] {
    } else {
      var front := steps[..|steps| - 1];
      StepsTaken(enabled, front, Exec(enabled, front).value, s);
    }
  }

  /**
    And until the summary is out a run waits for nothing but client futures: some task can move, or every server that
    has not reported is waiting for its client, which may then resolve.
   */
  lemma NeverStuck(enabled: set<string>, steps: seq<Step>, st: State) returns (step: Step)
    requires Reached(enabled, steps, st) && !st.completed
    ensures Enabled(st, step) && (step.Finish? || exists s :: s in enabled && Advances(step, s))
    ensures step.Resolve? ==> forall s :: s in st.phases && !st.phases[s].Reported? ==> st.phases[s].Spawned?
  {
    EveryRunLogs(enabled, steps, st);
    if AllReported(st) {
      step := Finish(Enumerate(enabled));
    } else if s :| s in st.phases && !st.phases[s].Reported? && !st.phases[s].Spawned? {
      match st.phases[s] {
        case Waiting => step := Announce(s);
        case Resolved(_) => step := Check(s);
        case Decided(_) => step := Report(s);
      }
      assert s in enabled && Advances(step, s);
    } else {
      var s :| s in st.phases && !st.phases[s].Reported?;
      step := Resolve(s, Ready);
      assert s in enabled && Advances(step, s);
    }
  }

  ghost function Enumerate(names: set<string>): (order: seq<string>)
    ensures Distinct(order) && Elements(order) == names
  {
    if names == {} then []
    else
      var s :| s in names;
      var rest := Enumerate(names - {s});
      assert forall i :: 0 <= i < |rest| ==> rest[i] in Elements(rest);
      rest + [s]
  }
}
