/** What becomes of each tool that a server answers a fetch with: nothing is lost, added, reordered or relabelled. */
module ListingFetch {
  import opened Common
  import opened Ordering
  import opened ToolNames
  import opened Qualification
  import opened Listing

  // ---- Filters select ----

  /** `r` is what `s` holds at `places`, in order, and those are all the places where `p` holds. */
  ghost predicate Selects<T(!new)>(s: seq<T>, p: T -> bool, places: seq<nat>, r: seq<T>) {
    && |places| == |r|
    && (forall k :: 0 <= k < |places| ==> places[k] < |s| && r[k] == s[places[k]])
    && (forall k, l :: 0 <= k < l < |places| ==> places[k] < places[l])
    && (forall i :: 0 <= i < |s| ==> (p(s[i]) <==> i in places))
  }

  lemma {:induction false} FilterAppend<T>(s: seq<T>, x: T, p: T -> bool)
    ensures Filter(s + [x], p) == Filter(s, p) + if p(x) then [x] else []
  {
    if s == [] {
      assert [] + [x] == [x];
    } else {
      FilterAppend(s[1..], x, p);
      assert (s + [x])[1..] == s[1..] + [x];
    }
  }

  lemma SelectsOneMore<T(!new)>(s: seq<T>, x: T, p: T -> bool, places: seq<nat>, r: seq<T>)
    requires Selects(s, p, places, r)
    ensures p(x) ==> Selects(s + [x], p, places + [|s|], r + [x])
    ensures !p(x) ==> Selects(s + [x], p, places, r)
  {
    assert forall i :: i in places + [|s|] <==> i in places || i == |s|;
    assert forall k :: 0 <= k < |places| ==> places[k] in places;
  }

  lemma {:induction false} FilterSelects<T(!new)>(s: seq<T>, p: T -> bool) returns (places: seq<nat>)
    ensures Selects(s, p, places, Filter(s, p))
  {
    if s == [] {
      places := [];
    } else {
      var front, x := s[..|s| - 1], s[|s| - 1];
      assert s == front + [x];
      places := FilterSelects(front, p);
      FilterAppend(front, x, p);
      SelectsOneMore(front, x, p, places, Filter(front, p));
      if p(x) {
        places := places + [|front|];
      } else {
        assert Filter(front, p) + [] == Filter(front, p);
      }
    }
  }

  function Both<T>(p: T -> bool, q: T -> bool): T -> bool { (x: T) => p(x) && q(x) }

  lemma {:induction false} FilterBoth<T>(s: seq<T>, p: T -> bool, q: T -> bool)
    ensures Filter(Filter(s, p), q) == Filter(s, Both(p, q))
  {
    if s == [] {
    } else {
      FilterBoth(s[1..], p, q);
      if p(s[0]) {
        assert ([s[0]] + Filter(s[1..], p))[1..] == Filter(s[1..], p);
      } else {
        assert [] + Filter(s[1..], p) == Filter(s[1..], p);
      }
    }
  }

  // ---- A fetched tool ----

  /** The tool that a raw one becomes: connector metadata only on the apps server, and named after what is left. */
  ghost predicate Becomes(env: Env, server: string, instructions: Option<string>, raw: RawTool, t: ToolInfo) {
    && t.serverName == server && t.serverInstructions == instructions && t.tool == raw.tool
    && t.pluginDisplayNames == []
    && if server == "agere_apps"
       then RawTool(t.tool, t.connectorId, t.connectorName, t.connectorDescription) == raw &&
            env.naming(server, raw) == Parts(t.callableNamespace, t.callableName)
       else t.connectorId == t.connectorName == t.connectorDescription == None &&
            env.naming(server, RawTool(raw.tool, None, None, None)) == Parts(t.callableNamespace, t.callableName)
  }

  /** Only the apps server's tools are filtered by connector. */
  predicate Offerable(env: Env, server: string, raw: RawTool) {
    server == "agere_apps" && raw.connectorId.Some? ==> env.connectors(raw.connectorId.value)
  }

  /** Tool `k` comes from the raw tool at `places[k]`, in order, and those are the raw tools that `p` lets by. */
  ghost predicate Conserves(
    env: Env, server: string, instructions: Option<string>, raws: seq<RawTool>, p: RawTool -> bool,
    places: seq<nat>, tools: seq<ToolInfo>)
  {
    && |places| == |tools|
    && (forall k, l :: 0 <= k < l < |places| ==> places[k] < places[l])
    && (forall i :: 0 <= i < |raws| ==> (p(raws[i]) <==> i in places))
    && forall k :: 0 <= k < |places| ==>
         places[k] < |raws| && Becomes(env, server, instructions, raws[places[k]], tools[k])
  }

  function Made(env: Env, server: string, instructions: Option<string>, raws: seq<RawTool>): seq<ToolInfo> {
    Apply((raw: RawTool) => MakeInfo(env, server, instructions, raw), raws)
  }

  lemma MadeFrom(env: Env, server: string, instructions: Option<string>, raws: seq<RawTool>, i: nat)
    requires i < |raws|
    ensures |Made(env, server, instructions, raws)| == |raws|
    ensures Becomes(env, server, instructions, raws[i], Made(env, server, instructions, raws)[i])
    ensures server == "agere_apps" ==> (ConnectorOk(env, Made(env, server, instructions, raws)[i]) <==>
                                        Offerable(env, server, raws[i]))
  {
  }

  /** Choosing among the made tools is choosing among the raw ones. */
  lemma ChosenFromRaws(
    env: Env, server: string, instructions: Option<string>, raws: seq<RawTool>, q: ToolInfo -> bool,
    p: RawTool -> bool, places: seq<nat>, tools: seq<ToolInfo>)
    requires Selects(Made(env, server, instructions, raws), q, places, tools)
    requires forall i :: 0 <= i < |raws| ==> (q(Made(env, server, instructions, raws)[i]) <==> p(raws[i]))
    ensures Conserves(env, server, instructions, raws, p, places, tools)
  {
    forall k | 0 <= k < |places|
      ensures places[k] < |raws| && Becomes(env, server, instructions, raws[places[k]], tools[k])
    {
      MadeFrom(env, server, instructions, raws, places[k]);
    }
  }

  /** A fetch conserves the raw tools: all of them, or on the apps server those whose connector is absent or allowed. */
  lemma UncachedConserves(env: Env, server: string, instructions: Option<string>, raws: seq<RawTool>)
    returns (places: seq<nat>)
    ensures Conserves(env, server, instructions, raws, raw => Offerable(env, server, raw), places,
                      Uncached(env, server, instructions, raws))
    ensures server != "agere_apps" ==> |Uncached(env, server, instructions, raws)| == |raws|
  {
    var made := Made(env, server, instructions, raws);
    var q := if server == APPS_SERVER then ConnectorAllowed(env) else (t: ToolInfo) => true;
    places := FilterSelects(made, q);
    if server != APPS_SERVER {
      FilterKeepsAll(made, q);
    }
    forall i | 0 <= i < |raws| ensures q(made[i]) <==> Offerable(env, server, raws[i]) {
      MadeFrom(env, server, instructions, raws, i);
    }
    ChosenFromRaws(env, server, instructions, raws, q, raw => Offerable(env, server, raw), places,
                   Uncached(env, server, instructions, raws));
  }

  // ---- Up to the model ----

  /** What the model is shown of a tool: masked on the apps server, its plugins named, and nothing else changed. */
  ghost predicate Presents(a: Annotations, t: ToolInfo, x: ToolInfo) {
    && x == t.(tool := x.tool, pluginDisplayNames := x.pluginDisplayNames)
    && x.pluginDisplayNames == (if t.connectorId.Some? then a.forConnector(t.connectorId.value)
                                else a.forServer(t.serverName))
    && x.tool.name == t.tool.name
    && x.tool.inputSchema == (if t.serverName == "agere_apps" then a.visibleSchema(t.tool) else t.tool.inputSchema)
    && x.tool.description == (if x.pluginDisplayNames == [] then t.tool.description
                              else Some(a.describe(t.tool.description, x.pluginDisplayNames)))
  }

  lemma AnnotatePresents(a: Annotations, t: ToolInfo)
    ensures Presents(a, t, Annotate(a, t))
  {
  }

  /** The names that an allow list and a deny list leave. */
  ghost predicate Permits(filter: ToolFilter, name: string) {
    match filter.enabled
    case Some(enabled) => name in enabled - filter.disabled
    case None => name !in filter.disabled
  }

  lemma AllowsIff(filter: ToolFilter, name: string)
    ensures filter.Allows(name) <==> Permits(filter, name)
  {
  }

  ghost predicate Shows(env: Env, server: string, filter: ToolFilter, raw: RawTool) {
    Offerable(env, server, raw) && Permits(filter, raw.tool.name)
  }

  lemma FilteredConserves(
    env: Env, server: string, filter: ToolFilter, instructions: Option<string>, raws: seq<RawTool>)
    returns (places: seq<nat>)
    ensures Conserves(env, server, instructions, raws, raw => Shows(env, server, filter, raw), places,
                      FilterTools(Uncached(env, server, instructions, raws), filter))
  {
    var made := Made(env, server, instructions, raws);
    var q := if server == APPS_SERVER then ConnectorAllowed(env) else (t: ToolInfo) => true;
    var both := Both(q, NameAllowed(filter));
    FilterBoth(made, q, NameAllowed(filter));
    if server != APPS_SERVER {
      FilterKeepsAll(made, q);
    }
    places := FilterSelects(made, both);
    forall i | 0 <= i < |raws| ensures both(made[i]) <==> Shows(env, server, filter, raws[i]) {
      AllowsIff(filter, raws[i].tool.name);
      MadeFrom(env, server, instructions, raws, i);
    }
    ChosenFromRaws(env, server, instructions, raws, both, raw => Shows(env, server, filter, raw), places,
                   FilterTools(Uncached(env, server, instructions, raws), filter));
  }

  ghost predicate PresentsAll(a: Annotations, tools: seq<ToolInfo>, shown: seq<ToolInfo>) {
    |shown| == |tools| && forall k :: 0 <= k < |shown| ==> Presents(a, tools[k], shown[k])
  }

  lemma AnnotatePresentsAll(a: Annotations, tools: seq<ToolInfo>)
    ensures PresentsAll(a, tools, Apply((t: ToolInfo) => Annotate(a, t), tools))
  {
    forall k | 0 <= k < |tools| ensures Presents(a, tools[k], Annotate(a, tools[k])) {
      AnnotatePresents(a, tools[k]);
    }
  }

  /** What a completed write of fetched tools leaves to be read is those tools. */
  lemma WrittenIsRead(env: Env, file: CacheFile, instructions: Option<string>, raws: seq<RawTool>)
    ensures var fetched := Uncached(env, APPS_SERVER, instructions, raws);
      LoadCache(env, WriteIfNeeded(env, APPS_SERVER, file, fetched, Done)) == Hit(fetched)
  {
    var fetched := Uncached(env, APPS_SERVER, instructions, raws);
    forall t | t in fetched ensures ConnectorOk(env, t) {
      UncachedIsTrusted(env, APPS_SERVER, instructions, raws, t);
    }
    FilterKeepsAll(fetched, ConnectorAllowed(env));
  }

  /**
    Once the apps server is ready, a completed write of fetched tools makes it show exactly those that the connector
    policy and its own filter let by, in the server's order, each as itself.
   */
  lemma WriteShowsFetched(
    env: Env, a: Annotations, c: Client, file: CacheFile, instructions: Option<string>, raws: seq<RawTool>)
    returns (tools: seq<ToolInfo>, places: seq<nat>)
    requires c.server == APPS_SERVER && c.outcome.Ready?
    ensures Conserves(env, c.server, instructions, raws, raw => Shows(env, c.server, c.filter, raw), places, tools)
    ensures var file' := WriteIfNeeded(env, c.server, file, Uncached(env, c.server, instructions, raws), Done);
      ToolsShown(env, a, c, file').Some? && PresentsAll(a, tools, ToolsShown(env, a, c, file').value)
  {
    places := FilteredConserves(env, c.server, c.filter, instructions, raws);
    tools := FilterTools(Uncached(env, c.server, instructions, raws), c.filter);
    WrittenIsRead(env, file, instructions, raws);
    AnnotatePresentsAll(a, tools);
  }

  /** The same after a startup, for every server. */
  lemma StartupShowsFetched(
    env: Env, a: Annotations, c: Client, file: CacheFile, instructions: Option<string>, raws: seq<RawTool>)
    returns (tools: seq<ToolInfo>, places: seq<nat>)
    requires ValidServerName(c.server)
    ensures Conserves(env, c.server, instructions, raws, raw => Shows(env, c.server, c.filter, raw), places, tools)
    ensures var (c', file') := FinishStartup(env, c, file, Some((instructions, raws)), Done);
      && CanList(c') && ToolsShown(env, a, c', file').Some?
      && PresentsAll(a, tools, ToolsShown(env, a, c', file').value)
  {
    places := FilteredConserves(env, c.server, c.filter, instructions, raws);
    tools := FilterTools(Uncached(env, c.server, instructions, raws), c.filter);
    if c.server == APPS_SERVER {
      WrittenIsRead(env, file, instructions, raws);
    }
    AnnotatePresentsAll(a, tools);
  }

  /** In ASCII codes: letters, digits, underscore and hyphen. */
  ghost predicate ServerNameChar(c: char) {
    var n := c as int;
    48 <= n < 58 || 65 <= n < 91 || 97 <= n < 123 || n == 95 || n == 45
  }

  /** Startup succeeds exactly for a non-empty name of such characters whose tools could be fetched. */
  lemma StartsIff(env: Env, c: Client, file: CacheFile, fetch: Fetch, io: WriteOutcome)
    ensures FinishStartup(env, c, file, fetch, io).0.outcome.Ready? <==>
      fetch.Some? && c.server != [] && forall i :: 0 <= i < |c.server| ==> ServerNameChar(c.server[i])
    ensures !FinishStartup(env, c, file, fetch, io).0.outcome.Ready? ==>
      FinishStartup(env, c, file, fetch, io) == (c.(outcome := Failed), file)
  {
    forall i | 0 <= i < |c.server| ensures NameChar(c.server[i]) <==> ServerNameChar(c.server[i]) {
      CleanCharIs(c.server[i]);
    }
  }

  /** A call is refused for the first of three reasons that applies, and forwarded if none does. */
  lemma CallToolIs(clients: map<string, Client>, server: string, tool: string)
    ensures CallTool(clients, server, tool) == UnknownServer <==> server !in clients
    ensures CallTool(clients, server, tool) == NotStarted <==> server in clients && !clients[server].outcome.Ready?
    ensures CallTool(clients, server, tool) == Disabled <==>
      server in clients && clients[server].outcome.Ready? && !Permits(clients[server].filter, tool)
  {
  }

  /** A cache file is used exactly when it parses and has version 2, and then whatever the connectors allow of it. */
  lemma LoadSelects(env: Env, file: CacheFile) returns (places: seq<nat>)
    ensures LoadCache(env, file).Hit? <==> file.Stored? && file.schemaVersion == 2
    ensures LoadCache(env, file) == NotFound <==> file == Missing
    ensures LoadCache(env, file).Hit? ==>
      Selects(file.tools, ConnectorAllowed(env), places, LoadCache(env, file).tools)
  {
    places := [];
    if file.Stored? {
      places := FilterSelects(file.tools, ConnectorAllowed(env));
    }
  }
}
