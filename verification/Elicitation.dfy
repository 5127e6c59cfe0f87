/** MCP elicitation: requests from servers wait in a shared map of responders until someone resolves them. */
module Elicitation {
  import opened Common
  import opened Rpc

  // ---- Policy ----

  datatype ApprovalPolicy = Never | OnFailure | OnRequest | UnlessTrusted | Granular(allowsElicitations: bool)

  datatype PermissionProfile = Disabled | External | Managed(fullDiskWrite: bool)

  datatype Elicit = Form(properties: set<string>) | Url

  datatype Decision = AutoAccept | Decline | Ask

  predicate AutoApproved(policy: ApprovalPolicy, profile: PermissionProfile) {
    policy.Never? && (profile.Managed? ==> profile.fullDiskWrite)
  }

  predicate RejectedByPolicy(policy: ApprovalPolicy) {
    match policy
    case Never => true
    case Granular(allows) => !allows
    case _ => false
  }

  function Decide(policy: ApprovalPolicy, profile: PermissionProfile, elicit: Elicit): Decision {
    if AutoApproved(policy, profile) && elicit.Form? && elicit.properties == {} then AutoAccept
    else if RejectedByPolicy(policy) then Decline
    else Ask
  }

  // ---- Requesters and responders ----

  type Key = (string, RequestId)

  /**
    The requester's end of its one-shot channel: waiting, answered, closed because its responder was dropped, or given
    up.
   */
  datatype Inbox<R> = Open | Answered(response: R) | Closed | GivenUp

  datatype Requester<R> = Requester(key: Key, published: bool, inbox: Inbox<R>)

  /** `requests` maps a key to the requester whose responder it holds; `prompts` lists the published requesters. */
  datatype State<R> = State(requests: map<Key, nat>, requesters: map<nat, Requester<R>>, prompts: seq<nat>)

  /**
    The atomic steps of senders and resolvers. A sender registers under the lock, publishes its prompt, then waits;
    it can be dropped meanwhile.
   */
  datatype Step<R> =
    | Register(requester: nat, key: Key)
    | Publish(requester: nat)
    | Resolve(key: Key, response: R)
    | GiveUp(requester: nat)

  datatype Reply = Delivered | NotFound | SendFailed

  predicate Enabled<R>(st: State<R>, step: Step<R>) {
    match step
    case Register(r, _) => r !in st.requesters
    case Publish(r) => r in st.requesters && !st.requesters[r].published && !st.requesters[r].inbox.GivenUp?
    case Resolve(_, _) => true
    case GiveUp(r) => r in st.requesters && st.requesters[r].inbox.Open?
  }

  /** Dropping a responder wakes its requester with a closed channel. */
  function Displace<R>(st: State<R>, key: Key): map<nat, Requester<R>> {
    if key in st.requests && st.requests[key] in st.requesters && st.requesters[st.requests[key]].inbox.Open?
    then st.requesters[st.requests[key] := st.requesters[st.requests[key]].(inbox := Closed)]
    else st.requesters
  }

  function Deliver<R>(st: State<R>, r: nat, response: R): map<nat, Requester<R>> {
    if r in st.requesters && st.requesters[r].inbox.Open?
    then st.requesters[r := st.requesters[r].(inbox := Answered(response))]
    else st.requesters
  }

  function Take<R>(st: State<R>, step: Step<R>): State<R>
    requires Enabled(st, step)
  {
    match step
    case Register(r, key) =>
      State(st.requests[key := r], Displace(st, key)[r := Requester(key, false, Open)], st.prompts)
    case Publish(r) =>
      st.(requesters := st.requesters[r := st.requesters[r].(published := true)], prompts := st.prompts + [r])
    case Resolve(key, response) =>
      if key in st.requests
      then st.(requests := st.requests - {key}, requesters := Deliver(st, st.requests[key], response))
      else st
    case GiveUp(r) => st.(requesters := st.requesters[r := st.requesters[r].(inbox := GivenUp)])
  }

  /** What a resolve returns to its caller. */
  function ReplyTo<R>(st: State<R>, key: Key): Reply {
    if key !in st.requests then NotFound
    else if st.requests[key] in st.requesters && st.requesters[st.requests[key]].inbox.Open? then Delivered
    else SendFailed
  }

  function Initial<R>(): State<R> { State(map[], map[], []) }

  /** The state after the first `n` steps, if each is enabled in its turn. */
  function Exec<R>(steps: seq<Step<R>>, n: nat): Option<State<R>>
    requires n <= |steps|
  {
    if n == 0 then Some(Initial())
    else
      match Exec(steps, n - 1)
      case None => None
      case Some(st) => if Enabled(st, steps[n - 1]) then Some(Take(st, steps[n - 1])) else None
  }

  ghost predicate Possible<R>(steps: seq<Step<R>>) { Exec(steps, |steps|).Some? }

  lemma {:induction false} PrefixPossible<R>(steps: seq<Step<R>>, n: nat, m: nat)
    requires n <= m <= |steps| && Exec(steps, m).Some?
    ensures Exec(steps, n).Some?
  {
    if n < m {
      PrefixPossible(steps, n, m - 1);
    }
  }

  ghost function At<R>(steps: seq<Step<R>>, n: nat): State<R>
    requires n <= |steps| && Possible(steps)
  {
    PrefixPossible(steps, n, |steps|);
    Exec(steps, n).value
  }

  /** One step of a possible run, as the transition relation sees it. */
  lemma Next<R>(steps: seq<Step<R>>, n: nat)
    requires n < |steps| && Possible(steps)
    ensures Enabled(At(steps, n), steps[n])
    ensures At(steps, n + 1) == Take(At(steps, n), steps[n])
  {
    PrefixPossible(steps, n + 1, |steps|);
  }

  // ---- Which responder a key holds ----

  predicate Touches<R>(step: Step<R>, key: Key) {
    (step.Register? && step.key == key) || (step.Resolve? && step.key == key)
  }

  /** Step `i` is the last one before `n` to register or resolve the key. */
  ghost predicate LastTouch<R>(steps: seq<Step<R>>, n: int, key: Key, i: int) {
    0 <= i < n <= |steps| && Touches(steps[i], key) && forall j :: i < j < n ==> !Touches(steps[j], key)
  }

  ghost predicate Untouched<R>(steps: seq<Step<R>>, n: int, key: Key) {
    0 <= n <= |steps| && forall j :: 0 <= j < n ==> !Touches(steps[j], key)
  }

  /** Find the last step to touch the key, if any did. */
  lemma {:induction false} FindLastTouch<R>(steps: seq<Step<R>>, n: nat, key: Key) returns (i: int)
    requires n <= |steps|
    ensures i >= 0 ==> LastTouch(steps, n, key, i)
    ensures i < 0 ==> Untouched(steps, n, key)
  {
    if n == 0 {
      i := -1;
    } else if Touches(steps[n - 1], key) {
      i := n - 1;
    } else {
      i := FindLastTouch(steps, n - 1, key);
    }
  }

  lemma {:induction false} HeldAfter<R>(steps: seq<Step<R>>, n: nat, key: Key, i: nat)
    requires Possible(steps) && LastTouch(steps, n, key, i)
    ensures key in At(steps, n).requests <==> steps[i].Register?
    ensures steps[i].Register? ==> At(steps, n).requests[key] == steps[i].requester
  {
    Next(steps, n - 1);
    if i < n - 1 {
      HeldAfter(steps, n - 1, key, i);
    }
  }

  lemma {:induction false} NotHeldUntouched<R>(steps: seq<Step<R>>, n: nat, key: Key)
    requires Possible(steps) && Untouched(steps, n, key)
    ensures key !in At(steps, n).requests
  {
    if n == 0 {
    } else {
      Next(steps, n - 1);
      NotHeldUntouched(steps, n - 1, key);
    }
  }

  /**
    A resolve finds a responder exactly when the last step to touch its key was a registration, and then the one it
    finds is that registration's.
   */
  lemma ResolveFindsLatest<R>(steps: seq<Step<R>>, n: nat, key: Key)
    requires Possible(steps) && n <= |steps|
    ensures key in At(steps, n).requests <==> exists i :: LastTouch(steps, n, key, i) && steps[i].Register?
    ensures forall i :: LastTouch(steps, n, key, i) && steps[i].Register? ==>
      key in At(steps, n).requests && At(steps, n).requests[key] == steps[i].requester
  {
    forall i | LastTouch(steps, n, key, i) && steps[i].Register?
      ensures key in At(steps, n).requests && At(steps, n).requests[key] == steps[i].requester
    {
      HeldAfter(steps, n, key, i);
    }
    var last := FindLastTouch(steps, n, key);
    if last < 0 {
      NotHeldUntouched(steps, n, key);
    } else {
      HeldAfter(steps, n, key, last);
    }
  }

  /** A second resolve with no registration in between finds nothing. */
  lemma SecondResolveFails<R>(steps: seq<Step<R>>, i: nat, n: nat, key: Key)
    requires Possible(steps) && i < n <= |steps|
    requires steps[i].Resolve? && steps[i].key == key
    requires forall j :: i < j < n ==> !(steps[j].Register? && steps[j].key == key)
    ensures ReplyTo(At(steps, n), key) == NotFound
  {
    var last := FindLastTouch(steps, n, key);
    assert Touches(steps[i], key);
    assert last >= i;
    HeldAfter(steps, n, key, last);
  }

  // ---- Requesters ----

  /** A requester is waiting, or gave up without an answer, exactly while the map holds its responder. */
  ghost predicate Tracked<R>(st: State<R>, r: nat) {
    && (r in st.requesters && st.requesters[r].inbox.Open? ==>
          st.requesters[r].key in st.requests && st.requests[st.requesters[r].key] == r)
    && (forall key :: key in st.requests && st.requests[key] == r ==>
          r in st.requesters && st.requesters[r].key == key &&
          (st.requesters[r].inbox.Open? || st.requesters[r].inbox.GivenUp?))
    && (r in st.prompts <==> r in st.requesters && st.requesters[r].published)
  }

  lemma TrackedStep<R>(st: State<R>, step: Step<R>, r: nat)
    requires Enabled(st, step) && forall q :: Tracked(st, q)
    ensures Tracked(Take(st, step), r)
  {
    match step {
      case Register(q, key) =>
        assert Tracked(st, q);
        assert Tracked(st, r);
        if key in st.requests { assert Tracked(st, st.requests[key]); }
      case Publish(q) => assert Tracked(st, r);
      case Resolve(key, _) =>
        assert Tracked(st, r);
        if key in st.requests { assert Tracked(st, st.requests[key]); }
      case GiveUp(q) => assert Tracked(st, r);
    }
  }

  /** No waiting requester is ever forgotten: the map holds its responder for as long as it waits. */
  lemma {:induction false} RequestersTracked<R>(steps: seq<Step<R>>, n: nat)
    requires Possible(steps) && n <= |steps|
    ensures forall r :: Tracked(At(steps, n), r)
  {
    if n == 0 {
    } else {
      RequestersTracked(steps, n - 1);
      Next(steps, n - 1);
      forall r ensures Tracked(At(steps, n), r) { TrackedStep(At(steps, n - 1), steps[n - 1], r); }
    }
  }

  ghost predicate RegisteredAt<R>(steps: seq<Step<R>>, n: int, r: nat, i: int) {
    0 <= i < n <= |steps| && steps[i].Register? && steps[i].requester == r
  }

  /** A requester exists exactly when it registered, and it registers once. */
  lemma {:induction false} RegisteredOnce<R>(steps: seq<Step<R>>, n: nat, r: nat)
    requires Possible(steps) && n <= |steps|
    ensures r in At(steps, n).requesters <==> exists i :: RegisteredAt(steps, n, r, i)
    ensures forall i :: RegisteredAt(steps, n, r, i) ==>
      r in At(steps, n).requesters && At(steps, n).requesters[r].key == steps[i].key
    ensures forall i, j :: RegisteredAt(steps, n, r, i) && RegisteredAt(steps, n, r, j) ==> i == j
  {
    if n == 0 {
    } else {
      var m := n - 1;
      RegisteredOnce(steps, m, r);
      Next(steps, m);
      assert forall i :: RegisteredAt(steps, n, r, i) && i != m ==> RegisteredAt(steps, m, r, i);
      if r in At(steps, m).requesters {
        var i :| RegisteredAt(steps, m, r, i);
        assert RegisteredAt(steps, n, r, i);
      }
      if steps[m].Register? && steps[m].requester == r {
        assert RegisteredAt(steps, n, r, m);
      }
    }
  }

  /** A prompt is published only by a requester that has registered its responder before. */
  lemma PublishedAfterRegistered<R>(steps: seq<Step<R>>, k: nat) returns (i: nat)
    requires Possible(steps) && k < |steps| && steps[k].Publish?
    ensures i < k && steps[i].Register? && steps[i].requester == steps[k].requester
  {
    Next(steps, k);
    RegisteredOnce(steps, k, steps[k].requester);
    i :| RegisteredAt(steps, k, steps[k].requester, i);
  }

  // ---- Every responder is used at most once ----

  /** The responder a resolve step takes out of the map. */
  ghost predicate Uses<R>(steps: seq<Step<R>>, k: int, r: nat)
    requires Possible(steps)
  {
    0 <= k < |steps| && steps[k].Resolve? &&
    steps[k].key in At(steps, k).requests && At(steps, k).requests[steps[k].key] == r
  }

  ghost predicate Holds<R>(st: State<R>, r: nat) { exists key :: key in st.requests && st.requests[key] == r }

  lemma {:induction false} NeverBack<R>(steps: seq<Step<R>>, n: nat, m: nat, r: nat)
    requires Possible(steps) && n <= m <= |steps|
    requires r in At(steps, n).requesters && !Holds(At(steps, n), r)
    ensures r in At(steps, m).requesters && !Holds(At(steps, m), r)
  {
    if n < m {
      NeverBack(steps, n, m - 1, r);
      Next(steps, m - 1);
      if Holds(At(steps, m), r) {
        HeldBefore(At(steps, m - 1), steps[m - 1], r);
      }
    }
  }

  lemma HeldBefore<R>(st: State<R>, step: Step<R>, r: nat)
    requires Enabled(st, step) && r in st.requesters && Holds(Take(st, step), r)
    ensures Holds(st, r)
  {
    var key :| key in Take(st, step).requests && Take(st, step).requests[key] == r;
    assert key in st.requests && st.requests[key] == r;
  }

  lemma ResponderUsedOnce<R>(steps: seq<Step<R>>, i: nat, j: nat, r: nat)
    requires Possible(steps) && Uses(steps, i, r) && Uses(steps, j, r)
    ensures i == j
  {
    if i < j {
      UsedIsGone(steps, i, r);
      NeverBack(steps, i + 1, j, r);
      assert Holds(At(steps, j), r);
    } else if j < i {
      UsedIsGone(steps, j, r);
      NeverBack(steps, j + 1, i, r);
      assert Holds(At(steps, i), r);
    }
  }

  lemma UsedIsGone<R>(steps: seq<Step<R>>, i: nat, r: nat)
    requires Possible(steps) && Uses(steps, i, r)
    ensures r in At(steps, i + 1).requesters && !Holds(At(steps, i + 1), r)
  {
    RequestersTracked(steps, i);
    Next(steps, i);
    assert Tracked(At(steps, i), r);
  }

  // ---- How a wait ends ----

  /** An answered requester was answered by the one resolve that used its responder. */
  lemma {:induction false} AnsweredByResolve<R>(steps: seq<Step<R>>, n: nat, r: nat) returns (k: nat)
    requires Possible(steps) && n <= |steps|
    requires r in At(steps, n).requesters && At(steps, n).requesters[r].inbox.Answered?
    ensures k < n && Uses(steps, k, r) && At(steps, n).requesters[r].inbox == Answered(steps[k].response)
    ensures ReplyTo(At(steps, k), steps[k].key) == Delivered
  {
    var m := n - 1;
    Next(steps, m);
    if r in At(steps, m).requesters && At(steps, m).requesters[r].inbox.Answered? {
      k := AnsweredByResolve(steps, m, r);
    } else {
      k := m;
    }
  }

  /** A requester's channel closes only when a later requester registers under the same key. */
  lemma {:induction false} ClosedByReplacement<R>(steps: seq<Step<R>>, n: nat, r: nat) returns (k: nat)
    requires Possible(steps) && n <= |steps|
    requires r in At(steps, n).requesters && At(steps, n).requesters[r].inbox.Closed?
    ensures k < n && steps[k].Register? && steps[k].requester != r && steps[k].key == At(steps, n).requesters[r].key
  {
    var m := n - 1;
    Next(steps, m);
    if r in At(steps, m).requesters && At(steps, m).requesters[r].inbox.Closed? {
      k := ClosedByReplacement(steps, m, r);
    } else {
      k := m;
      RequestersTracked(steps, m);
      assert Tracked(At(steps, m), r);
    }
  }

  predicate WaitsFor<R>(st: State<R>, r: nat, key: Key) {
    r in st.requesters && st.requesters[r].key == key && st.requesters[r].inbox.Open?
  }

  /** Once a wait has ended, its outcome stays. */
  lemma {:induction false} OutcomeStays<R>(steps: seq<Step<R>>, n: nat, m: nat, r: nat)
    requires Possible(steps) && n <= m <= |steps|
    requires r in At(steps, n).requesters && !At(steps, n).requesters[r].inbox.Open?
    ensures r in At(steps, m).requesters && At(steps, m).requesters[r].inbox == At(steps, n).requesters[r].inbox
  {
    if n == m {
    } else {
      OutcomeStays(steps, n, m - 1, r);
      Next(steps, m - 1);
    }
  }

  /** A resolve answers the requester that waits under its key, at once and for good. */
  lemma ResolveAnswers<R>(steps: seq<Step<R>>, n: nat, m: nat, r: nat)
    requires Possible(steps) && n < m <= |steps| && steps[n].Resolve? && WaitsFor(At(steps, n), r, steps[n].key)
    ensures r in At(steps, m).requesters && At(steps, m).requesters[r].inbox == Answered(steps[n].response)
  {
    RequestersTracked(steps, n);
    assert Tracked(At(steps, n), r);
    Next(steps, n);
    OutcomeStays(steps, n + 1, m, r);
  }

  /** A registration closes the channel of the requester that waits under its key. */
  lemma ReplacementCloses<R>(steps: seq<Step<R>>, n: nat, m: nat, r: nat)
    requires Possible(steps) && n < m <= |steps| && steps[n].Register? && WaitsFor(At(steps, n), r, steps[n].key)
    ensures r in At(steps, m).requesters && At(steps, m).requesters[r].inbox == Closed
  {
    RequestersTracked(steps, n);
    assert Tracked(At(steps, n), r);
    Next(steps, n);
    OutcomeStays(steps, n + 1, m, r);
  }

  /** The caller is told Delivered exactly when someone waits under the key, and NotFound when nothing is held there. */
  lemma DeliveredIffWaiting<R>(steps: seq<Step<R>>, n: nat, key: Key)
    requires Possible(steps) && n <= |steps|
    ensures ReplyTo(At(steps, n), key) == Delivered <==> exists r :: WaitsFor(At(steps, n), r, key)
    ensures ReplyTo(At(steps, n), key) == NotFound <==> key !in At(steps, n).requests
  {
    var st := At(steps, n);
    RequestersTracked(steps, n);
    if key in st.requests {
      assert Tracked(st, st.requests[key]);
      assert ReplyTo(st, key) == Delivered ==> WaitsFor(st, st.requests[key], key);
    }
    if r :| WaitsFor(st, r, key) {
      assert Tracked(st, r);
    }
  }

  /**
    The user is asked exactly when the policy does not reject elicitations: what is auto-accepted is rejected
    otherwise.
   */
  lemma AskedUnlessRejected(policy: ApprovalPolicy, profile: PermissionProfile, elicit: Elicit)
    ensures Decide(policy, profile, elicit) == Ask <==> policy != Never && policy != Granular(false)
    ensures Decide(policy, profile, elicit) == AutoAccept <==>
      policy == Never && profile != Managed(false) && elicit == Form({})
  {
  }

  // ---- The manager object ----

  class ElicitationManager<R> {
    var requests: map<Key, nat>
    var requesters: map<nat, Requester<R>>
    var prompts: seq<nat>

    function Value(): State<R>
      reads this
    {
      State(requests, requesters, prompts)
    }

    constructor ()
      ensures Value() == Initial()
    {
      requests, requesters, prompts := map[], map[], [];
    }

    method Close(key: Key)
      modifies this`requesters
      ensures requesters == Displace(old(Value()), key)
    {
      if key in requests {
        var displaced := requests[key];
        if displaced in requesters && requesters[displaced].inbox.Open? {
          requesters := requesters[displaced := requesters[displaced].(inbox := Closed)];
        }
      }
    }

    method AddResponder(r: nat, key: Key)
      requires Enabled(Value(), Register(r, key))
      modifies this
      ensures Value() == Take(old(Value()), Register(r, key))
    {
      Close(key);
      requesters := requesters[r := Requester(key, false, Open)];
      requests := requests[key := r];
    }

    method PublishPrompt(r: nat)
      requires Enabled(Value(), Publish(r))
      modifies this
      ensures Value() == Take(old(Value()), Publish(r))
    {
      requesters := requesters[r := requesters[r].(published := true)];
      prompts := prompts + [r];
    }

    method Abandon(r: nat)
      requires Enabled(Value(), GiveUp(r))
      modifies this
      ensures Value() == Take(old(Value()), GiveUp(r))
    {
      requesters := requesters[r := requesters[r].(inbox := GivenUp)];
    }

    method ResolveRequest(key: Key, response: R) returns (reply: Reply)
      modifies this
      ensures reply == ReplyTo(old(Value()), key)
      ensures Value() == Take(old(Value()), Step.Resolve(key, response))
    {
      if key !in requests {
        return NotFound;
      }
      var r := requests[key];
      requests := requests - {key};
      if r in requesters && requesters[r].inbox.Open? {
        requesters := requesters[r := requesters[r].(inbox := Answered(response))];
        return Delivered;
      }
      return SendFailed;
    }

    /** Any interleaving of senders and resolvers, one atomic step after the other. */
    method RunSteps(steps: seq<Step<R>>)
      requires Value() == Initial() && Possible(steps)
      modifies this
      ensures Value() == At(steps, |steps|)
    {
      for n := 0 to |steps|
        invariant Value() == At(steps, n)
      {
        Next(steps, n);
        match steps[n] {
          case Register(r, key) => AddResponder(r, key);
          case Publish(r) => PublishPrompt(r);
          case GiveUp(r) => Abandon(r);
          case Resolve(key, response) => var _ := ResolveRequest(key, response);
        }
      }
    }
  }
}
