/** Which tools an MCP server shows: filters, the startup snapshot, the on-disk cache and the fetched list. */
module Listing {
  import opened Common
  import opened Ordering
  import opened ToolNames
  import opened Qualification

  const APPS_SERVER := "agere_apps"
  const CACHE_SCHEMA_VERSION := 2

  // ---- Filters ----

  datatype ToolFilter = ToolFilter(enabled: Option<set<string>>, disabled: set<string>) {
    predicate Allows(name: string) {
      (enabled.Some? ==> name in enabled.value) && name !in disabled
    }
  }

  function Filter<T>(s: seq<T>, p: T -> bool): seq<T> {
    if s == [] then [] else (if p(s[0]) then [s[0]] else []) + Filter(s[1..], p)
  }

  lemma {:induction false} FilterMembers<T>(s: seq<T>, p: T -> bool, x: T)
    ensures x in Filter(s, p) <==> x in s && p(x)
  {
    if s == [] {
    } else {
      FilterMembers(s[1..], p, x);
      assert s == [s[0]] + s[1..];
    }
  }

  lemma {:induction false} FilterKeepsAll<T>(s: seq<T>, p: T -> bool)
    requires forall x :: x in s ==> p(x)
    ensures Filter(s, p) == s
  {
    if s == [] {
    } else {
      FilterKeepsAll(s[1..], p);
      assert s == [s[0]] + s[1..];
    }
  }

  lemma FilterTwice<T>(s: seq<T>, p: T -> bool)
    ensures Filter(Filter(s, p), p) == Filter(s, p)
  {
    forall x | x in Filter(s, p) ensures p(x) { FilterMembers(s, p, x); }
    FilterKeepsAll(Filter(s, p), p);
  }

  /** `connectors` is `is_connector_id_allowed`; `naming` gives a fetched tool's callable parts. */
  datatype Env = Env(connectors: string -> bool, naming: (string, RawTool) -> Parts)

  datatype RawTool = RawTool(
    tool: Tool, connectorId: Option<string>, connectorName: Option<string>, connectorDescription: Option<string>)

  predicate ConnectorOk(env: Env, t: ToolInfo) {
    t.connectorId.Some? ==> env.connectors(t.connectorId.value)
  }

  function NameAllowed(filter: ToolFilter): ToolInfo -> bool { (t: ToolInfo) => filter.Allows(t.tool.name) }

  function ConnectorAllowed(env: Env): ToolInfo -> bool { (t: ToolInfo) => ConnectorOk(env, t) }

  function FilterTools(tools: seq<ToolInfo>, filter: ToolFilter): seq<ToolInfo> { Filter(tools, NameAllowed(filter)) }

  function FilterDisallowed(env: Env, tools: seq<ToolInfo>): seq<ToolInfo> { Filter(tools, ConnectorAllowed(env)) }

  // ---- The disk cache ----

  datatype CacheFile = Missing | Unreadable | Garbage | Stored(schemaVersion: nat, tools: seq<ToolInfo>)

  datatype Load = Hit(tools: seq<ToolInfo>) | NotFound | Invalid

  /**
    A write is done, gives up before touching the file, or breaks off half-way and leaves a file that does not parse.
   */
  datatype WriteOutcome = Done | Skipped | Torn

  function LoadCache(env: Env, file: CacheFile): Load {
    match file
    case Missing => NotFound
    case Unreadable => Invalid
    case Garbage => Invalid
    case Stored(version, tools) =>
      if version != CACHE_SCHEMA_VERSION then Invalid else Hit(FilterDisallowed(env, tools))
  }

  function WriteCache(env: Env, file: CacheFile, tools: seq<ToolInfo>, io: WriteOutcome): CacheFile {
    match io
    case Done => Stored(CACHE_SCHEMA_VERSION, FilterDisallowed(env, tools))
    case Skipped => file
    case Torn => Garbage
  }

  // ---- Fetching ----

  /** Only the apps server may name connectors: any other server's connector metadata is dropped. */
  function Trusted(server: string, raw: RawTool): RawTool {
    if server == APPS_SERVER then raw else RawTool(raw.tool, None, None, None)
  }

  function MakeInfo(env: Env, server: string, instructions: Option<string>, raw: RawTool): ToolInfo {
    var r := Trusted(server, raw);
    var parts := env.naming(server, r);
    ToolInfo(server, parts.name, parts.namespace, instructions, r.tool, r.connectorId, r.connectorName, [],
             r.connectorDescription)
  }

  function Uncached(env: Env, server: string, instructions: Option<string>, raws: seq<RawTool>): seq<ToolInfo> {
    var tools := Apply((raw: RawTool) => MakeInfo(env, server, instructions, raw), raws);
    if server == APPS_SERVER then FilterDisallowed(env, tools) else tools
  }

  lemma UncachedIsTrusted(env: Env, server: string, instructions: Option<string>, raws: seq<RawTool>, t: ToolInfo)
    requires t in Uncached(env, server, instructions, raws)
    ensures t.serverName == server && ConnectorOk(env, t)
  {
    var tools := Apply((raw: RawTool) => MakeInfo(env, server, instructions, raw), raws);
    if server == APPS_SERVER {
      FilterMembers(tools, ConnectorAllowed(env), t);
    }
  }

  // ---- A client ----

  datatype Outcome = Pending | Failed | Ready(tools: seq<ToolInfo>)

  datatype Client = Client(server: string, filter: ToolFilter, snapshot: Option<seq<ToolInfo>>, outcome: Outcome)

  /** What a fetch answered: the server's instructions and tools, or an error. */
  type Fetch = Option<(Option<string>, seq<RawTool>)>

  function FetchedTools(env: Env, server: string, fetch: Fetch): Option<seq<ToolInfo>> {
    match fetch
    case None => None
    case Some((instructions, raws)) => Some(Uncached(env, server, instructions, raws))
  }

  function NewClient(env: Env, server: string, filter: ToolFilter, file: CacheFile): Client {
    var load := LoadCache(env, file);
    var snapshot := if server == APPS_SERVER && load.Hit? then Some(FilterTools(load.tools, filter)) else None;
    Client(server, filter, snapshot, Pending)
  }

  function WriteIfNeeded(env: Env, server: string, file: CacheFile, tools: seq<ToolInfo>, io: WriteOutcome): CacheFile {
    if server == APPS_SERVER then WriteCache(env, file, tools, io) else file
  }

  predicate NameChar(c: char) { CleanChar(c) || c == '-' }

  predicate ValidServerName(name: string) { name != [] && forall i :: 0 <= i < |name| ==> NameChar(name[i]) }

  /** A server with an invalid name fails before anything is fetched. */
  function FinishStartup(env: Env, c: Client, file: CacheFile, fetch: Fetch, io: WriteOutcome): (Client, CacheFile) {
    match FetchedTools(env, c.server, fetch)
    case None => (c.(outcome := Failed), file)
    case Some(tools) =>
      if !ValidServerName(c.server) then (c.(outcome := Failed), file)
      else (c.(outcome := Ready(FilterTools(tools, c.filter))), WriteIfNeeded(env, c.server, file, tools, io))
  }

  /** Only servers with valid names have anything to show. */
  predicate NamedClient(c: Client) {
    (c.outcome.Ready? ==> ValidServerName(c.server)) && (c.snapshot.Some? ==> c.server == APPS_SERVER)
  }

  lemma AppsNameIsValid()
    ensures ValidServerName(APPS_SERVER)
  {
    assert APPS_SERVER == ['a', 'g', 'e', 'r', 'e', '_', 'a', 'p', 'p', 's'];
  }

  function ReadyTools(env: Env, c: Client, file: CacheFile): seq<ToolInfo>
    requires c.outcome.Ready?
  {
    if c.server == APPS_SERVER && LoadCache(env, file).Hit? then FilterTools(LoadCache(env, file).tools, c.filter)
    else c.outcome.tools
  }

  /** A listing has to wait for startup only when there is no snapshot to show meanwhile. */
  predicate CanList(c: Client) { c.outcome.Pending? ==> c.snapshot.Some? }

  function RawListed(env: Env, c: Client, file: CacheFile): Option<seq<ToolInfo>>
    requires CanList(c)
  {
    match c.outcome
    case Pending => c.snapshot
    case Failed => c.snapshot
    case Ready(_) => Some(ReadyTools(env, c, file))
  }

  // ---- Every source is filtered ----

  ghost predicate Safe(env: Env, filter: ToolFilter, tools: seq<ToolInfo>) {
    forall t :: t in tools ==> filter.Allows(t.tool.name) && ConnectorOk(env, t)
  }

  ghost predicate SafeClient(env: Env, c: Client) {
    && (c.snapshot.Some? ==> Safe(env, c.filter, c.snapshot.value))
    && (c.outcome.Ready? ==> Safe(env, c.filter, c.outcome.tools))
  }

  lemma HitIsSafe(env: Env, filter: ToolFilter, file: CacheFile)
    requires LoadCache(env, file).Hit?
    ensures Safe(env, filter, FilterTools(LoadCache(env, file).tools, filter))
  {
    var tools := LoadCache(env, file).tools;
    forall t | t in FilterTools(tools, filter) ensures filter.Allows(t.tool.name) && ConnectorOk(env, t) {
      FilterMembers(tools, NameAllowed(filter), t);
      FilterMembers(file.tools, ConnectorAllowed(env), t);
    }
  }

  lemma NewClientIsSafe(env: Env, server: string, filter: ToolFilter, file: CacheFile)
    ensures SafeClient(env, NewClient(env, server, filter, file))
  {
    if LoadCache(env, file).Hit? {
      HitIsSafe(env, filter, file);
    }
  }

  lemma FetchedIsSafe(env: Env, c: Client, fetch: Fetch)
    requires fetch.Some?
    ensures Safe(env, c.filter, FilterTools(FetchedTools(env, c.server, fetch).value, c.filter))
  {
    var tools := FetchedTools(env, c.server, fetch).value;
    forall t | t in FilterTools(tools, c.filter) ensures c.filter.Allows(t.tool.name) && ConnectorOk(env, t) {
      FilterMembers(tools, NameAllowed(c.filter), t);
      UncachedIsTrusted(env, c.server, fetch.value.0, fetch.value.1, t);
    }
  }

  lemma FinishStartupIsSafe(env: Env, c: Client, file: CacheFile, fetch: Fetch, io: WriteOutcome)
    requires SafeClient(env, c)
    ensures SafeClient(env, FinishStartup(env, c, file, fetch, io).0)
  {
    if fetch.Some? {
      FetchedIsSafe(env, c, fetch);
    }
  }

  /** Whatever the cache file holds by now, and whichever source the listing uses, nothing filtered out is shown. */
  lemma ListedIsSafe(env: Env, c: Client, file: CacheFile)
    requires SafeClient(env, c) && CanList(c) && RawListed(env, c, file).Some?
    ensures Safe(env, c.filter, RawListed(env, c, file).value)
  {
    if LoadCache(env, file).Hit? {
      HitIsSafe(env, c.filter, file);
    }
  }

  // ---- Whose tools are shown ----

  ghost predicate NamesServer(server: string, tools: seq<ToolInfo>) {
    forall t :: t in tools ==> t.serverName == server
  }

  /** The usable tools in the cache file are the apps server's own. */
  ghost predicate OwnCache(env: Env, filter: ToolFilter, file: CacheFile) {
    file.Stored? && file.schemaVersion == CACHE_SCHEMA_VERSION ==>
      forall t :: t in file.tools && ConnectorOk(env, t) && filter.Allows(t.tool.name) ==> t.serverName == APPS_SERVER
  }

  lemma HitNamesServer(env: Env, filter: ToolFilter, file: CacheFile)
    requires LoadCache(env, file).Hit?
    ensures NamesServer(APPS_SERVER, FilterTools(LoadCache(env, file).tools, filter)) <==> OwnCache(env, filter, file)
  {
    var tools := LoadCache(env, file).tools;
    forall t ensures t in FilterTools(tools, filter) <==>
                     t in file.tools && ConnectorOk(env, t) && filter.Allows(t.tool.name)
    {
      FilterMembers(tools, NameAllowed(filter), t);
      FilterMembers(file.tools, ConnectorAllowed(env), t);
    }
  }

  ghost predicate OwnReady(c: Client) { c.outcome.Ready? ==> NamesServer(c.server, c.outcome.tools) }

  ghost predicate OwnSnapshot(c: Client) { c.snapshot.Some? ==> NamesServer(c.server, c.snapshot.value) }

  /** Every write keeps the file the apps server's own, whatever happens to the write. */
  lemma WritesKeepOwnCache(
    env: Env, server: string, filter: ToolFilter, file: CacheFile, fetch: Fetch, io: WriteOutcome)
    requires OwnCache(env, filter, file) && fetch.Some?
    ensures OwnCache(env, filter, WriteIfNeeded(env, server, file, FetchedTools(env, server, fetch).value, io))
  {
    var tools := FetchedTools(env, server, fetch).value;
    forall t | server == APPS_SERVER && t in FilterDisallowed(env, tools) ensures t.serverName == APPS_SERVER {
      FilterMembers(tools, ConnectorAllowed(env), t);
      UncachedIsTrusted(env, server, fetch.value.0, fetch.value.1, t);
    }
  }

  lemma StartsOwn(env: Env, server: string, filter: ToolFilter, file: CacheFile)
    requires OwnCache(env, filter, file)
    ensures OwnSnapshot(NewClient(env, server, filter, file))
  {
    if LoadCache(env, file).Hit? {
      HitNamesServer(env, filter, file);
    }
  }

  lemma FinishesOwn(env: Env, c: Client, file: CacheFile, fetch: Fetch, io: WriteOutcome)
    ensures OwnReady(FinishStartup(env, c, file, fetch, io).0)
  {
    if fetch.Some? {
      var tools := FetchedTools(env, c.server, fetch).value;
      forall t | t in FilterTools(tools, c.filter) ensures t.serverName == c.server {
        FilterMembers(tools, NameAllowed(c.filter), t);
        UncachedIsTrusted(env, c.server, fetch.value.0, fetch.value.1, t);
      }
    }
  }

  lemma ListsOwn(env: Env, c: Client, file: CacheFile)
    requires OwnReady(c) && OwnSnapshot(c) && CanList(c) && RawListed(env, c, file).Some?
    requires c.server == APPS_SERVER ==> OwnCache(env, c.filter, file)
    ensures NamesServer(c.server, RawListed(env, c, file).value)
  {
    if LoadCache(env, file).Hit? {
      HitNamesServer(env, c.filter, file);
    }
  }

  /**
    A cache file that some other program wrote can make the apps server show a tool of another server, one whose
    own filter refuses it.
   */
  lemma ForeignCacheIsShown(env: Env) returns (file: CacheFile, other: ToolFilter)
    ensures var c := NewClient(env, APPS_SERVER, ToolFilter(None, {}), file);
      && CanList(c)
      && exists t :: t in RawListed(env, c, file).value && t.serverName == "other" && !other.Allows(t.tool.name)
  {
    var t := ToolInfo("other", "x", "ns", None, Tool("x", None, ""), None, None, [], None);
    file, other := Stored(CACHE_SCHEMA_VERSION, [t]), ToolFilter(None, {"x"});
    var filter := ToolFilter(None, {});
    var c := NewClient(env, APPS_SERVER, filter, file);
    FilterMembers([t], ConnectorAllowed(env), t);
    FilterMembers(FilterDisallowed(env, [t]), NameAllowed(filter), t);
    assert t in RawListed(env, c, file).value;
  }

  // ---- The cache agrees with the fetched list ----

  datatype Refresh = FetchFailed | Fetched(tools: seq<ToolInfo>, io: WriteOutcome)

  /** The cache file after a list of writes; a refresh whose fetch fails returns before it gets to the file. */
  function FileAfter(env: Env, file: CacheFile, refreshes: seq<Refresh>): CacheFile {
    if refreshes == [] then file
    else
      var before := FileAfter(env, file, refreshes[..|refreshes| - 1]);
      match refreshes[|refreshes| - 1]
      case FetchFailed => before
      case Fetched(tools, io) => WriteCache(env, before, tools, io)
  }

  /**
    The list a reader should see: that of the last completed write, unless a torn write came after it. `usable` is
    what the file offered at the beginning.
   */
  ghost function Current(usable: Option<seq<ToolInfo>>, refreshes: seq<Refresh>): Option<seq<ToolInfo>> {
    if refreshes == [] then usable
    else
      var last := refreshes[|refreshes| - 1];
      if last.Fetched? && last.io.Done? then Some(last.tools)
      else if last.Fetched? && last.io.Torn? then None
      else Current(usable, refreshes[..|refreshes| - 1])
  }

  ghost predicate AllTrusted(env: Env, refreshes: seq<Refresh>) {
    forall i :: 0 <= i < |refreshes| && refreshes[i].Fetched? ==>
      forall t :: t in refreshes[i].tools ==> ConnectorOk(env, t)
  }

  function Usable(env: Env, file: CacheFile): Option<seq<ToolInfo>> {
    match LoadCache(env, file) case Hit(tools) => Some(tools) case _ => None
  }

  lemma {:induction false} CacheFollowsWrites(env: Env, file: CacheFile, refreshes: seq<Refresh>)
    requires AllTrusted(env, refreshes)
    ensures Usable(env, FileAfter(env, file, refreshes)) == Current(Usable(env, file), refreshes)
  {
    if refreshes == [] {
    } else {
      var last := refreshes[|refreshes| - 1];
      CacheFollowsWrites(env, file, refreshes[..|refreshes| - 1]);
      if last.Fetched? {
        FilterKeepsAll(last.tools, ConnectorAllowed(env));
        FilterTwice(last.tools, ConnectorAllowed(env));
      }
    }
  }

  /**
    A started apps server lists exactly what filtering the last written list directly would give, and falls back to
    its startup list only when the file was torn since.
   */
  lemma CacheIsTransparent(env: Env, c: Client, start: seq<ToolInfo>, file: CacheFile, refreshes: seq<Refresh>)
    requires c.server == APPS_SERVER && c.outcome == Ready(FilterTools(start, c.filter))
    requires AllTrusted(env, refreshes)
    ensures var current := Current(Usable(env, file), refreshes);
      ReadyTools(env, c, FileAfter(env, file, refreshes)) ==
      FilterTools(if current.Some? then current.value else start, c.filter)
  {
    CacheFollowsWrites(env, file, refreshes);
  }

  /** After startup whose write completed, the cache hit is the fetched list, filtered. */
  lemma StartupHitIsFetched(env: Env, c: Client, file: CacheFile, fetch: Fetch)
    requires c.server == APPS_SERVER && fetch.Some?
    ensures var (c', file') := FinishStartup(env, c, file, fetch, Done);
      && LoadCache(env, file').Hit?
      && ReadyTools(env, c', file') == c'.outcome.tools
      && c'.outcome.tools == FilterTools(FetchedTools(env, c.server, fetch).value, c.filter)
  {
    var tools := FetchedTools(env, c.server, fetch).value;
    forall t | t in tools ensures ConnectorOk(env, t) {
      UncachedIsTrusted(env, c.server, fetch.value.0, fetch.value.1, t);
    }
    FilterKeepsAll(tools, ConnectorAllowed(env));
    AppsNameIsValid();
  }

  // ---- What a model is shown ----

  /**
    `forConnector` and `forServer` say which plugins a connector or a server belongs to, `describe` writes them into a
    description, and `visibleSchema` is the input schema with file parameters masked.
   */
  datatype Annotations = Annotations(
    forConnector: string -> seq<string>, forServer: string -> seq<string>,
    describe: (Option<string>, seq<string>) -> string, visibleSchema: Tool -> string)

  function Mask(a: Annotations, t: ToolInfo): ToolInfo {
    t.(tool := t.tool.(inputSchema := a.visibleSchema(t.tool)))
  }

  function Annotate(a: Annotations, t: ToolInfo): ToolInfo {
    var masked := if t.serverName == APPS_SERVER then Mask(a, t) else t;
    var plugins := match t.connectorId case Some(id) => a.forConnector(id) case None => a.forServer(t.serverName);
    var named := masked.(pluginDisplayNames := plugins);
    if plugins == [] then named
    else named.(tool := named.tool.(description := Some(a.describe(named.tool.description, plugins))))
  }

  function ToolsShown(env: Env, a: Annotations, c: Client, file: CacheFile): Option<seq<ToolInfo>>
    requires CanList(c)
  {
    match RawListed(env, c, file)
    case None => None
    case Some(tools) => Some(Apply((t: ToolInfo) => Annotate(a, t), tools))
  }

  /** What a tool shows of a raw one, and what its call sends back, stay as they are. */
  lemma ShownComesFrom(env: Env, a: Annotations, c: Client, file: CacheFile, x: ToolInfo) returns (t: ToolInfo)
    requires CanList(c) && ToolsShown(env, a, c, file).Some? && x in ToolsShown(env, a, c, file).value
    ensures t in RawListed(env, c, file).value && x == Annotate(a, t)
    ensures x.serverName == t.serverName && x.tool.name == t.tool.name && x.connectorId == t.connectorId
  {
    var raw := RawListed(env, c, file).value;
    var i :| 0 <= i < |raw| && Annotate(a, raw[i]) == x;
    t := raw[i];
  }

  // ---- Calling ----

  datatype Call = UnknownServer | NotStarted | Disabled | Forwarded

  function CallTool(clients: map<string, Client>, server: string, tool: string): Call {
    if server !in clients then UnknownServer
    else if !clients[server].outcome.Ready? then NotStarted
    else if !clients[server].filter.Allows(tool) then Disabled
    else Forwarded
  }

  /** The list a started server's listing filters: the cache hit of the apps server, otherwise what startup fetched. */
  function Offered(env: Env, c: Client, start: seq<ToolInfo>, file: CacheFile): seq<ToolInfo> {
    if c.server == APPS_SERVER && LoadCache(env, file).Hit? then LoadCache(env, file).tools else start
  }

  ghost predicate NameIn(tools: seq<ToolInfo>, name: string) { exists t :: t in tools && t.tool.name == name }

  /**
    A started server shows a tool of some name exactly when its list offers one and a call to that name is let
    through.
   */
  lemma ShownIffCallable(
    env: Env, a: Annotations, clients: map<string, Client>, s: string, start: seq<ToolInfo>, file: CacheFile,
    name: string)
    requires s in clients && clients[s].server == s
    requires clients[s].outcome == Ready(FilterTools(start, clients[s].filter))
    ensures NameIn(ToolsShown(env, a, clients[s], file).value, name) <==>
            NameIn(Offered(env, clients[s], start, file), name) && CallTool(clients, s, name).Forwarded?
  {
    var c := clients[s];
    var offered := Offered(env, c, start, file);
    assert RawListed(env, c, file).value == FilterTools(offered, c.filter);
    FilteredNames(offered, c.filter, name);
    AnnotatedNames(a, FilterTools(offered, c.filter), name);
  }

  lemma FilteredNames(tools: seq<ToolInfo>, filter: ToolFilter, name: string)
    ensures NameIn(FilterTools(tools, filter), name) <==> NameIn(tools, name) && filter.Allows(name)
  {
    forall t ensures t in FilterTools(tools, filter) <==> t in tools && filter.Allows(t.tool.name) {
      FilterMembers(tools, NameAllowed(filter), t);
    }
  }

  lemma AnnotatedNames(a: Annotations, tools: seq<ToolInfo>, name: string)
    ensures NameIn(Apply((t: ToolInfo) => Annotate(a, t), tools), name) <==> NameIn(tools, name)
  {
    var shown := Apply((t: ToolInfo) => Annotate(a, t), tools);
    if x :| x in shown && x.tool.name == name {
      var i :| 0 <= i < |shown| && shown[i] == x;
      assert tools[i] in tools && tools[i].tool.name == name;
    }
    if t :| t in tools && t.tool.name == name {
      var i :| 0 <= i < |tools| && tools[i] == t;
      assert shown[i] in shown && shown[i].tool.name == name;
    }
  }

  /** So after a skipped write an old cache file hides a fetched tool that may be called. */
  lemma OldCacheHidesTool(env: Env, a: Annotations, raw: RawTool) returns (c: Client, file: CacheFile)
    requires raw.connectorId.None?
    ensures c.server == APPS_SERVER && c.outcome == Ready([MakeInfo(env, APPS_SERVER, None, raw)])
    ensures CallTool(map[APPS_SERVER := c], APPS_SERVER, raw.tool.name).Forwarded?
    ensures ToolsShown(env, a, c, file) == Some([])
  {
    var filter := ToolFilter(None, {});
    var t := MakeInfo(env, APPS_SERVER, None, raw);
    assert Apply((r: RawTool) => MakeInfo(env, APPS_SERVER, None, r), [raw]) == [t];
    FilterKeepsAll([t], ConnectorAllowed(env));
    FilterKeepsAll([t], NameAllowed(filter));
    file := Stored(CACHE_SCHEMA_VERSION, []);
    AppsNameIsValid();
    var start := NewClient(env, APPS_SERVER, filter, file);
    c := FinishStartup(env, start, file, Some((None, [raw])), Skipped).0;
  }
}
