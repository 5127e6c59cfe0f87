/**
  The listing code in its own form: a cache file rewritten in place, a client that starts up, and the listing loops.
 */
module ListingObjects {
  import opened Common
  import opened ToolNames
  import opened Qualification
  import opened QualificationPasses
  import opened Listing
  import opened ListingManager

  class ToolCache {
    var file: CacheFile

    constructor (file: CacheFile)
      ensures this.file == file
    {
      this.file := file;
    }

    method Write(env: Env, server: string, tools: seq<ToolInfo>, io: WriteOutcome)
      modifies this
      ensures file == WriteIfNeeded(env, server, old(file), tools, io)
    {
      if server != APPS_SERVER || io.Skipped? {
        return;
      }
      if io.Torn? {
        file := Garbage;
      } else {
        file := Stored(CACHE_SCHEMA_VERSION, FilterDisallowed(env, tools));
      }
    }
  }

  class ManagedServer {
    const server: string
    const filter: ToolFilter
    const snapshot: Option<seq<ToolInfo>>
    var startupComplete: bool
    var outcome: Outcome

    function Value(): Client
      reads this
    {
      Client(server, filter, snapshot, outcome)
    }

    /** The flag is raised when the startup future resolves, and nothing filtered out is held back for a listing. */
    ghost predicate Valid(env: Env)
      reads this
    {
      startupComplete == !outcome.Pending? && SafeClient(env, Value()) && NamedClient(Value())
    }

    constructor (env: Env, server: string, filter: ToolFilter, cache: ToolCache)
      ensures Valid(env) && Value() == NewClient(env, server, filter, cache.file)
    {
      NewClientIsSafe(env, server, filter, cache.file);
      this.server := server;
      this.filter := filter;
      this.startupComplete := false;
      this.outcome := Pending;
      var kept: Option<seq<ToolInfo>> := None;
      if server == APPS_SERVER {
        match LoadCache(env, cache.file) {
          case Hit(tools) => kept := Some(FilterTools(tools, filter));
          case NotFound =>
          case Invalid =>
        }
      }
      this.snapshot := kept;
    }

    /** The tail of the startup task: fetch, write the cache, filter, and only then resolve. */
    method FinishStartup(env: Env, cache: ToolCache, fetch: Fetch, io: WriteOutcome)
      requires Valid(env) && outcome.Pending?
      modifies this, cache
      ensures Valid(env) && startupComplete
      ensures (Value(), cache.file) == Listing.FinishStartup(env, old(Value()), old(cache.file), fetch, io)
    {
      FinishStartupIsSafe(env, Value(), cache.file, fetch, io);
      match FetchedTools(env, server, fetch) {
        case None =>
          outcome := Failed;
        case Some(tools) =>
          if ValidServerName(server) {
            cache.Write(env, server, tools, io);
            outcome := Ready(FilterTools(tools, filter));
          } else {
            outcome := Failed;
          }
      }
      startupComplete := true;
    }

    method ListedTools(env: Env, a: Annotations, cache: ToolCache) returns (r: Option<seq<ToolInfo>>)
      requires Valid(env) && CanList(Value())
      ensures r == ToolsShown(env, a, Value(), cache.file)
    {
      var tools := snapshot;
      if startupComplete && outcome.Ready? {
        tools := Some(ReadyTools(env, Value(), cache.file));
      }
      if tools.None? {
        return None;
      }
      var annotated := AnnotateTools(a, tools.value);
      return Some(annotated);
    }

    /**
      A failed fetch returns before the cache is touched. The result is None on an error; otherwise it is the qualified
      map of the filtered and masked tools, or the inner None of a qualification that never returns.
     */
    method HardRefresh(sha1: Digest, env: Env, a: Annotations, cache: ToolCache, fetch: Fetch, io: WriteOutcome)
      returns (r: Option<Option<map<string, ToolInfo>>>)
      requires Valid(env) && server == APPS_SERVER && startupComplete
      modifies cache
      ensures r.Some? <==> outcome.Ready? && fetch.Some?
      ensures r.None? ==> cache.file == old(cache.file)
      ensures r.Some? ==>
        && var fetched := FetchedTools(env, server, fetch).value;
        && cache.file == FileAfter(env, old(cache.file), [Fetched(fetched, io)])
        && r.value == Qualify(sha1, Apply((t: ToolInfo) => Mask(a, t), FilterTools(fetched, filter)))
        && (io.Done? ==> FilterTools(fetched, filter) == ReadyTools(env, Value(), cache.file))
    {
      if !outcome.Ready? || fetch.None? {
        return None;
      }
      var tools := FetchedTools(env, server, fetch).value;
      ghost var before := cache.file;
      cache.Write(env, server, tools, io);
      RefreshedFile(env, Value(), before, fetch, io);
      var shown := FilterTools(tools, filter);
      var qualified := QualifyTools(sha1, Apply((t: ToolInfo) => Mask(a, t), shown));
      return Some(qualified);
    }
  }

  lemma RefreshedFile(env: Env, c: Client, before: CacheFile, fetch: Fetch, io: WriteOutcome)
    requires c.server == APPS_SERVER && c.outcome.Ready? && fetch.Some?
    ensures var fetched := FetchedTools(env, c.server, fetch).value;
      var after := WriteIfNeeded(env, c.server, before, fetched, io);
      && after == FileAfter(env, before, [Fetched(fetched, io)])
      && (io.Done? ==> FilterTools(fetched, c.filter) == ReadyTools(env, c, after))
  {
    assert FileAfter(env, before, []) == before;
    StartupHitIsFetched(env, c, before, fetch);
  }

  method AnnotateTools(a: Annotations, tools: seq<ToolInfo>) returns (r: seq<ToolInfo>)
    ensures r == Apply((t: ToolInfo) => Annotate(a, t), tools)
  {
    r := tools;
    for i := 0 to |tools|
      invariant |r| == |tools| && r[i..] == tools[i..]
      invariant forall k :: 0 <= k < i ==> r[k] == Annotate(a, tools[k])
    {
      var t := tools[i];
      if t.serverName == APPS_SERVER {
        t := Mask(a, t);
      }
      var plugins := match t.connectorId case Some(id) => a.forConnector(id) case None => a.forServer(t.serverName);
      t := t.(pluginDisplayNames := plugins);
      if plugins != [] {
        t := t.(tool := t.tool.(description := Some(a.describe(t.tool.description, plugins))));
      }
      r := r[i := t];
    }
  }

  /** The loop of `list_all_tools`; a server without a list is skipped. */
  method GatherTools(env: Env, a: Annotations, clients: map<string, Client>, file: CacheFile, order: seq<string>)
    returns (tools: seq<ToolInfo>)
    requires forall s :: s in order ==> s in clients && CanList(clients[s])
    ensures tools == Gather(Contributions(env, a, clients, file), order)
  {
    tools := [];
    for i := 0 to |order|
      invariant tools == Gather(Contributions(env, a, clients, file), order[..i])
    {
      assert order[..i + 1][..i] == order[..i];
      var listed := ToolsShown(env, a, clients[order[i]], file);
      if listed.None? {
        continue;
      }
      tools := tools + listed.value;
    }
    assert order[..|order|] == order;
  }

  method ListAllTools(
    sha1: Digest, env: Env, a: Annotations, clients: map<string, Client>, file: CacheFile, order: seq<string>)
    returns (r: Option<map<string, ToolInfo>>)
    requires forall s :: s in order ==> s in clients && CanList(clients[s])
    ensures r == ListAll(sha1, env, a, clients, file, order)
  {
    var tools := GatherTools(env, a, clients, file, order);
    r := QualifyTools(sha1, tools);
  }
}
