/** All servers of a manager together: what a listing of them shows in every reachable state. */
module ListingManager {
  import opened Common
  import opened Ordering
  import opened ToolNames
  import opened Qualification
  import opened RawIdentities
  import opened Listing
  import opened ListingFetch

  /** What each server adds to a listing of all of them: nothing while it has nothing to show. */
  function Contributions(env: Env, a: Annotations, clients: map<string, Client>, file: CacheFile)
    : string -> seq<ToolInfo>
  {
    s =>
      if s !in clients || !CanList(clients[s]) then []
      else match ToolsShown(env, a, clients[s], file) case None => [] case Some(tools) => tools
  }

  /** The servers' lists one after the other, in the order in which the client map is walked. */
  function Gather<T>(lists: string -> seq<T>, order: seq<string>): seq<T> {
    if order == [] then [] else Gather(lists, order[..|order| - 1]) + lists(order[|order| - 1])
  }

  // ---- Runs of a manager ----

  datatype Manager = Manager(clients: map<string, Client>, file: CacheFile)

  /** What changes a manager after it was made: a server's startup ends, or the apps tools are refreshed. */
  datatype Operation =
    | Started(server: string, fetch: Fetch, io: WriteOutcome)
    | Refreshed(fetch: Fetch, io: WriteOutcome)

  function NewManager(env: Env, filters: map<string, ToolFilter>, file: CacheFile): Manager {
    Manager(map s | s in filters :: NewClient(env, s, filters[s], file), file)
  }

  /** An operation on an unknown or unready server, and a refresh whose fetch fails, change nothing. */
  function Perform(env: Env, m: Manager, op: Operation): Manager {
    match op
    case Started(s, fetch, io) =>
      if s !in m.clients || !m.clients[s].outcome.Pending? then m
      else
        var (c, file) := FinishStartup(env, m.clients[s], m.file, fetch, io);
        Manager(m.clients[s := c], file)
    case Refreshed(fetch, io) =>
      if APPS_SERVER !in m.clients || !m.clients[APPS_SERVER].outcome.Ready? || fetch.None? then m
      else m.(file := WriteIfNeeded(env, APPS_SERVER, m.file, FetchedTools(env, APPS_SERVER, fetch).value, io))
  }

  function After(env: Env, start: Manager, ops: seq<Operation>): Manager {
    if ops == [] then start else Perform(env, After(env, start, ops[..|ops| - 1]), ops[|ops| - 1])
  }

  /**
    What every reachable state keeps: each client sits under its own name with its own filter and shows only filtered
    tools.
   */
  ghost predicate Sound(env: Env, filters: map<string, ToolFilter>, m: Manager) {
    && m.clients.Keys == filters.Keys
    && forall s :: s in filters ==> SoundClient(env, s, filters[s], m.clients[s])
  }

  ghost predicate SoundClient(env: Env, s: string, filter: ToolFilter, c: Client) {
    && c.server == s && c.filter == filter
    && SafeClient(env, c) && NamedClient(c) && OwnReady(c)
  }

  lemma StaysSound(env: Env, filters: map<string, ToolFilter>, m: Manager, op: Operation)
    requires Sound(env, filters, m)
    ensures Sound(env, filters, Perform(env, m, op))
  {
    var m' := Perform(env, m, op);
    forall s | s in filters ensures SoundClient(env, s, filters[s], m'.clients[s]) {
      if op.Started? && op.server == s {
        FinishStartupIsSafe(env, m.clients[s], m.file, op.fetch, op.io);
        FinishesOwn(env, m.clients[s], m.file, op.fetch, op.io);
      }
    }
  }

  /** However startups and refreshes interleave, whatever becomes of their writes and whatever the cache file held. */
  lemma {:induction false} AlwaysSound(env: Env, filters: map<string, ToolFilter>, file: CacheFile, ops: seq<Operation>)
    ensures Sound(env, filters, After(env, NewManager(env, filters, file), ops))
  {
    var start := NewManager(env, filters, file);
    if ops == [] {
      forall s | s in filters ensures SoundClient(env, s, filters[s], start.clients[s]) {
        NewClientIsSafe(env, s, filters[s], file);
      }
    } else {
      AlwaysSound(env, filters, file, ops[..|ops| - 1]);
      StaysSound(env, filters, After(env, start, ops[..|ops| - 1]), ops[|ops| - 1]);
    }
  }

  // ---- What is shown may be called ----

  /** The tool names a configured server whose filter lets calls to it through. */
  predicate Callable(filters: map<string, ToolFilter>, t: ToolInfo) {
    t.serverName in filters && filters[t.serverName].Allows(t.tool.name)
  }

  predicate Surfaceable(env: Env, filters: map<string, ToolFilter>, t: ToolInfo) {
    Callable(filters, t) && ConnectorOk(env, t)
  }

  /** The apps server, which alone reads the cache file, would show this tool of it. */
  ghost predicate UsableTool(env: Env, filters: map<string, ToolFilter>, file: CacheFile, t: ToolInfo) {
    && APPS_SERVER in filters && file.Stored? && file.schemaVersion == CACHE_SCHEMA_VERSION
    && t in file.tools && ConnectorOk(env, t) && filters[APPS_SERVER].Allows(t.tool.name)
  }

  ghost predicate HarmlessCache(env: Env, filters: map<string, ToolFilter>, file: CacheFile) {
    forall t :: UsableTool(env, filters, file, t) ==> Callable(filters, t)
  }

  ghost predicate HarmlessSnapshots(filters: map<string, ToolFilter>, m: Manager) {
    forall s, t :: s in m.clients && m.clients[s].snapshot.Some? && t in m.clients[s].snapshot.value ==>
      Callable(filters, t)
  }

  lemma HitIsUsable(env: Env, filters: map<string, ToolFilter>, file: CacheFile, t: ToolInfo)
    requires LoadCache(env, file).Hit? && APPS_SERVER in filters
    ensures t in FilterTools(LoadCache(env, file).tools, filters[APPS_SERVER]) <==> UsableTool(env, filters, file, t)
  {
    FilterMembers(LoadCache(env, file).tools, NameAllowed(filters[APPS_SERVER]), t);
    FilterMembers(file.tools, ConnectorAllowed(env), t);
  }

  /** What a completed write leaves is the apps server's own. */
  lemma WrittenIsOwn(env: Env, file: CacheFile, fetch: Fetch, io: WriteOutcome, t: ToolInfo)
    requires fetch.Some?
    ensures var after := WriteIfNeeded(env, APPS_SERVER, file, FetchedTools(env, APPS_SERVER, fetch).value, io);
      after.Stored? && t in after.tools ==> after == file || t.serverName == APPS_SERVER
  {
    var tools := FetchedTools(env, APPS_SERVER, fetch).value;
    if t in FilterDisallowed(env, tools) {
      FilterMembers(tools, ConnectorAllowed(env), t);
      UncachedIsTrusted(env, APPS_SERVER, fetch.value.0, fetch.value.1, t);
    }
  }

  lemma StaysHarmless(env: Env, filters: map<string, ToolFilter>, m: Manager, op: Operation)
    requires Sound(env, filters, m) && HarmlessCache(env, filters, m.file) && HarmlessSnapshots(filters, m)
    ensures var m' := Perform(env, m, op); HarmlessCache(env, filters, m'.file) && HarmlessSnapshots(filters, m')
  {
    var m' := Perform(env, m, op);
    forall t | UsableTool(env, filters, m'.file, t) ensures Callable(filters, t) {
      if m'.file != m.file {
        WrittenIsOwn(env, m.file, op.fetch, op.io, t);
      } else {
        assert UsableTool(env, filters, m.file, t);
      }
    }
  }

  lemma {:induction false} AlwaysHarmless(
    env: Env, filters: map<string, ToolFilter>, file: CacheFile, ops: seq<Operation>)
    requires HarmlessCache(env, filters, file)
    ensures var m := After(env, NewManager(env, filters, file), ops);
      HarmlessCache(env, filters, m.file) && HarmlessSnapshots(filters, m)
  {
    var start := NewManager(env, filters, file);
    if ops == [] {
      forall s, t | s in start.clients && start.clients[s].snapshot.Some? && t in start.clients[s].snapshot.value
        ensures Callable(filters, t)
      {
        HitIsUsable(env, filters, file, t);
      }
    } else {
      var front := ops[..|ops| - 1];
      AlwaysHarmless(env, filters, file, front);
      AlwaysSound(env, filters, file, front);
      StaysHarmless(env, filters, After(env, start, front), ops[|ops| - 1]);
    }
  }

  lemma RawListedIsCallable(env: Env, filters: map<string, ToolFilter>, m: Manager, s: string, t: ToolInfo)
    requires Sound(env, filters, m) && HarmlessCache(env, filters, m.file) && HarmlessSnapshots(filters, m)
    requires s in m.clients && CanList(m.clients[s]) && RawListed(env, m.clients[s], m.file).Some?
    requires t in RawListed(env, m.clients[s], m.file).value
    ensures Surfaceable(env, filters, t)
  {
    var c := m.clients[s];
    assert SoundClient(env, s, filters[s], c);
    ListedIsSafe(env, c, m.file);
    if c.outcome.Ready? && s == APPS_SERVER && LoadCache(env, m.file).Hit? {
      HitIsUsable(env, filters, m.file, t);
    }
  }

  /** Every tool that a state shows is surfaceable. */
  ghost predicate ShowsSurfaceable(env: Env, a: Annotations, filters: map<string, ToolFilter>, m: Manager) {
    forall s, t :: t in Contributions(env, a, m.clients, m.file)(s) ==> Surfaceable(env, filters, t)
  }

  lemma HarmlessShowsSurfaceable(env: Env, a: Annotations, filters: map<string, ToolFilter>, m: Manager)
    requires Sound(env, filters, m) && HarmlessCache(env, filters, m.file) && HarmlessSnapshots(filters, m)
    ensures ShowsSurfaceable(env, a, filters, m)
  {
    forall s, x | x in Contributions(env, a, m.clients, m.file)(s) ensures Surfaceable(env, filters, x) {
      var t := ShownComesFrom(env, a, m.clients[s], m.file, x);
      RawListedIsCallable(env, filters, m, s, t);
    }
  }

  lemma HarmfulIsShown(env: Env, a: Annotations, filters: map<string, ToolFilter>, file: CacheFile, t: ToolInfo)
    requires UsableTool(env, filters, file, t) && !Callable(filters, t)
    ensures !ShowsSurfaceable(env, a, filters, NewManager(env, filters, file))
  {
    var m := NewManager(env, filters, file);
    var c := m.clients[APPS_SERVER];
    HitIsUsable(env, filters, file, t);
    var i :| 0 <= i < |c.snapshot.value| && c.snapshot.value[i] == t;
    var shown := Contributions(env, a, m.clients, m.file)(APPS_SERVER);
    assert shown[i] == Annotate(a, t);
    assert !Surfaceable(env, filters, shown[i]);
  }

  lemma SurfaceableInRun(
    env: Env, a: Annotations, filters: map<string, ToolFilter>, file: CacheFile, ops: seq<Operation>)
    requires HarmlessCache(env, filters, file)
    ensures ShowsSurfaceable(env, a, filters, After(env, NewManager(env, filters, file), ops))
  {
    AlwaysSound(env, filters, file, ops);
    AlwaysHarmless(env, filters, file, ops);
    HarmlessShowsSurfaceable(env, a, filters, After(env, NewManager(env, filters, file), ops));
  }

  ghost predicate SurfaceableAfter(
    env: Env, a: Annotations, filters: map<string, ToolFilter>, start: Manager, ops: seq<Operation>)
  {
    ShowsSurfaceable(env, a, filters, After(env, start, ops))
  }

  /**
    Everything that any state of any run of a manager shows names a configured server whose `call_tool` filter allows
    it and has a permitted connector, exactly when that holds of what the apps server would show of the first cache
    file.
   */
  lemma SurfaceableIffHarmless(env: Env, a: Annotations, filters: map<string, ToolFilter>, file: CacheFile)
    ensures (forall ops :: SurfaceableAfter(env, a, filters, NewManager(env, filters, file), ops)) <==>
            HarmlessCache(env, filters, file)
  {
    var start := NewManager(env, filters, file);
    if HarmlessCache(env, filters, file) {
      forall ops ensures SurfaceableAfter(env, a, filters, start, ops) {
        SurfaceableInRun(env, a, filters, file, ops);
      }
    } else {
      var t :| UsableTool(env, filters, file, t) && !Callable(filters, t);
      HarmfulIsShown(env, a, filters, file, t);
      assert !SurfaceableAfter(env, a, filters, start, []);
    }
  }

  // ---- The combined map ----

  lemma {:induction false} GatheredFrom<T>(lists: string -> seq<T>, order: seq<string>, t: T) returns (s: string)
    requires t in Gather(lists, order)
    ensures s in order && t in lists(s)
  {
    s := order[|order| - 1];
    if t !in lists(s) {
      s := GatheredFrom(lists, order[..|order| - 1], t);
    }
  }

  /** Every entry of a qualified map is one of the given tools with its callable parts replaced. */
  lemma EntryComesFrom(sha1: Digest, tools: seq<ToolInfo>, name: string) returns (t: ToolInfo)
    ensures var r := Qualify(sha1, tools);
            r.Some? && name in r.value ==> t in tools && OnlyPartsDiffer(r.value[name], t)
  {
    var r := Qualify(sha1, tools);
    if r.Some? && name in r.value {
      var kept, names := QualifySound(sha1, tools);
      assert name in Elements(names);
      var i :| 0 <= i < |names| && names[i] == name;
      t := kept[i];
      assert t in multiset(kept);
      assert t in Kept(tools);
      KeptIsGiven(tools, t);
    } else {
      t := ToolInfo("", "", "", None, Tool("", None, ""), None, None, [], None);
    }
  }

  /** The combined map of a state whose clients are walked in this order. */
  ghost function ListAll(
    sha1: Digest, env: Env, a: Annotations, clients: map<string, Client>, file: CacheFile, order: seq<string>)
    : Option<map<string, ToolInfo>>
  {
    Qualify(sha1, Gather(Contributions(env, a, clients, file), order))
  }

  /**
    What a listing that waits between servers gathers: each server's list is read at a moment of its own, after some
    first part of the run.
   */
  function ListedAt(env: Env, a: Annotations, start: Manager, ops: seq<Operation>, moment: string -> nat)
    : string -> seq<ToolInfo>
  {
    s => ListedAfter(env, a, After(env, start, FirstOps(ops, moment(s))), s)
  }

  function FirstOps(ops: seq<Operation>, n: nat): seq<Operation> { if n <= |ops| then ops[..n] else ops }

  function ListedAfter(env: Env, a: Annotations, m: Manager, s: string): seq<ToolInfo> {
    Contributions(env, a, m.clients, m.file)(s)
  }

  /** So does every entry of the combined map, whenever each server's list was read. */
  lemma EveryListingIsSurfaceable(
    sha1: Digest, env: Env, a: Annotations, filters: map<string, ToolFilter>, file: CacheFile, ops: seq<Operation>,
    moment: string -> nat, order: seq<string>, name: string)
    requires HarmlessCache(env, filters, file)
    ensures var r := Qualify(sha1, Gather(ListedAt(env, a, NewManager(env, filters, file), ops, moment), order));
      r.Some? && name in r.value ==> Surfaceable(env, filters, r.value[name])
  {
    var lists := ListedAt(env, a, NewManager(env, filters, file), ops, moment);
    var s, t := EntrySource(sha1, lists, order, name);
    ListedInRun(env, a, filters, file, ops, moment, s, t);
    ListEntryIsSurfaceable(sha1, env, filters, lists, order, name, s, t);
  }

  lemma ListEntryIsSurfaceable(
    sha1: Digest, env: Env, filters: map<string, ToolFilter>, lists: string -> seq<ToolInfo>, order: seq<string>,
    name: string, s: string, t: ToolInfo)
    requires t in lists(s) ==> Surfaceable(env, filters, t)
    ensures var r := Qualify(sha1, Gather(lists, order));
      r.Some? && name in r.value && t in lists(s) && OnlyPartsDiffer(r.value[name], t) ==>
        Surfaceable(env, filters, r.value[name])
  {
    var r := Qualify(sha1, Gather(lists, order));
    if r.Some? && name in r.value && t in lists(s) && OnlyPartsDiffer(r.value[name], t) {
      EntryIsSurfaceable(env, filters, r.value[name], t);
    }
  }

  lemma ListedInRun(
    env: Env, a: Annotations, filters: map<string, ToolFilter>, file: CacheFile, ops: seq<Operation>,
    moment: string -> nat, s: string, t: ToolInfo)
    requires HarmlessCache(env, filters, file)
    ensures t in ListedAt(env, a, NewManager(env, filters, file), ops, moment)(s) ==> Surfaceable(env, filters, t)
  {
    ShownInRun(env, a, filters, file, FirstOps(ops, moment(s)), s, t);
  }

  /** Which server's list an entry of the combined map comes from. */
  lemma EntrySource(sha1: Digest, lists: string -> seq<ToolInfo>, order: seq<string>, name: string)
    returns (s: string, t: ToolInfo)
    ensures var r := Qualify(sha1, Gather(lists, order));
      r.Some? && name in r.value ==> t in lists(s) && OnlyPartsDiffer(r.value[name], t)
  {
    var r := Qualify(sha1, Gather(lists, order));
    s := "";
    t := EntryComesFrom(sha1, Gather(lists, order), name);
    if r.Some? && name in r.value {
      s := GatheredFrom(lists, order, t);
    }
  }

  lemma EntryIsSurfaceable(env: Env, filters: map<string, ToolFilter>, u: ToolInfo, t: ToolInfo)
    requires OnlyPartsDiffer(u, t) && Surfaceable(env, filters, t)
    ensures Surfaceable(env, filters, u)
  {
  }

  lemma ShownInRun(
    env: Env, a: Annotations, filters: map<string, ToolFilter>, file: CacheFile, ops: seq<Operation>, s: string,
    t: ToolInfo)
    requires HarmlessCache(env, filters, file)
    ensures var m := After(env, NewManager(env, filters, file), ops);
      t in Contributions(env, a, m.clients, m.file)(s) ==> Surfaceable(env, filters, t)
  {
    SurfaceableInRun(env, a, filters, file, ops);
  }

  lemma KeptIsGiven(tools: seq<ToolInfo>, t: ToolInfo)
    requires t in Kept(tools)
    ensures t in tools
  {
    FirstsAreGiven(tools, RawToolIdentity, {}, t);
  }

  lemma {:induction false} FirstsAreGiven<T>(s: seq<T>, key: T -> string, seen: set<string>, x: T)
    requires x in Firsts(s, key, seen)
    ensures x in s
  {
    if key(s[0]) in seen {
      FirstsAreGiven(s[1..], key, seen, x);
    } else if x != s[0] {
      FirstsAreGiven(s[1..], key, seen + {key(s[0])}, x);
    }
  }

  // ---- Resolving ----

  /** `resolve_tool_info` finds at most one tool: no two entries share a namespace and a name. */
  lemma ResolvesToOne(sha1: Digest, tools: seq<ToolInfo>, name: string, name': string)
    ensures var r := Qualify(sha1, tools);
      r.Some? && name in r.value && name' in r.value && SameCanonicalName(r.value[name], r.value[name']) ==>
        name == name'
  {
    var r := Qualify(sha1, tools);
    if r.Some? && name in r.value && name' in r.value {
      var _, names := QualifySound(sha1, tools);
      assert name in Elements(names) && name' in Elements(names);
    }
  }

  predicate SameCanonicalName(t: ToolInfo, u: ToolInfo) {
    t.callableNamespace == u.callableNamespace && t.callableName == u.callableName
  }

  /** After a completed refresh the apps server shows exactly what was fetched and may be shown, in order. */
  lemma RefreshShowsFetched(
    env: Env, a: Annotations, m: Manager, instructions: Option<string>, raws: seq<RawTool>)
    returns (tools: seq<ToolInfo>, places: seq<nat>)
    requires APPS_SERVER in m.clients && m.clients[APPS_SERVER].outcome.Ready?
    requires m.clients[APPS_SERVER].server == APPS_SERVER
    ensures var filter := m.clients[APPS_SERVER].filter;
      Conserves(env, APPS_SERVER, instructions, raws, raw => Shows(env, APPS_SERVER, filter, raw), places, tools)
    ensures var m' := Perform(env, m, Refreshed(Some((instructions, raws)), Done));
      PresentsAll(a, tools, Contributions(env, a, m'.clients, m'.file)(APPS_SERVER))
  {
    tools, places := WriteShowsFetched(env, a, m.clients[APPS_SERVER], m.file, instructions, raws);
  }

  /** No refresh, whatever comes of it, changes what any other server shows. */
  lemma RefreshLeavesOthers(env: Env, a: Annotations, m: Manager, fetch: Fetch, io: WriteOutcome, s: string)
    requires s != APPS_SERVER && (s in m.clients ==> m.clients[s].server == s)
    ensures var m' := Perform(env, m, Refreshed(fetch, io));
      Contributions(env, a, m'.clients, m'.file)(s) == Contributions(env, a, m.clients, m.file)(s)
  {
  }
}
