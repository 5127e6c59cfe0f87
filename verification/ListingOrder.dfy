/** Whether the order in which the servers are walked can be seen in the combined map. */
module ListingOrder {
  import opened Common
  import opened Ordering
  import opened ToolNames
  import opened Qualification
  import opened RawIdentities
  import opened Listing
  import opened ListingManager

  // ---- What deduplication keeps of lists walked one after the other ----

  lemma {:induction false} FirstsAppend<T(!new)>(a: seq<T>, b: seq<T>, key: T -> string, seen: set<string>)
    ensures Firsts(a + b, key, seen) == Firsts(a, key, seen) + Firsts(b, key, seen + Images(a, key))
  {
    if a == [] {
      assert a + b == b && seen + Images(a, key) == seen;
    } else {
      var k := key(a[0]);
      assert (a + b)[1..] == a[1..] + b;
      assert a == [a[0]] + a[1..];
      ImagesCons(a[0], a[1..], key);
      if k in seen {
        FirstsAppend(a[1..], b, key, seen);
        assert seen + Images(a, key) == seen + Images(a[1..], key);
      } else {
        FirstsAppend(a[1..], b, key, seen + {k});
        assert seen + Images(a, key) == seen + {k} + Images(a[1..], key);
      }
    }
  }

  /** Keys seen before take away exactly the kept elements that have them. */
  lemma {:induction false} FirstsSeen<T(!new)>(b: seq<T>, key: T -> string, seen: set<string>, more: set<string>, x: T)
    ensures x in Firsts(b, key, seen + more) <==> x in Firsts(b, key, seen) && key(x) !in more
  {
    if b == [] {
    } else {
      var k := key(b[0]);
      if k in seen {
        FirstsSeen(b[1..], key, seen, more, x);
      } else {
        FirstsSeen(b[1..], key, seen + {k}, more, x);
        assert seen + more + {k} == seen + {k} + more;
        assert k in more ==> seen + {k} + more == seen + more;
      }
    }
  }

  /** Two kept elements of one list have different keys. */
  lemma KeptKeysDiffer<T(!new)>(s: seq<T>, key: T -> string, x: T, y: T)
    requires x in Firsts(s, key, {}) && y in Firsts(s, key, {}) && key(x) == key(y)
    ensures x == y
  {
    FirstsDistinct(s, key, {});
  }

  ghost predicate KeptBy<T>(lists: string -> seq<T>, key: T -> string, s: string, x: T) {
    x in Firsts(lists(s), key, {})
  }

  ghost predicate KeptInOrder<T>(lists: string -> seq<T>, key: T -> string, order: seq<string>, x: T) {
    x in Firsts(Gather(lists, order), key, {})
  }

  /** One more server adds what it keeps itself, apart from keys that came before. */
  lemma KeptStep<T(!new)>(lists: string -> seq<T>, key: T -> string, front: seq<string>, last: string, x: T)
    ensures KeptInOrder(lists, key, front + [last], x) <==>
            || KeptInOrder(lists, key, front, x)
            || (KeptBy(lists, key, last, x) && key(x) !in Images(Gather(lists, front), key))
  {
    var all := Gather(lists, front);
    assert (front + [last])[..|front|] == front;
    FirstsAppend(all, lists(last), key, {});
    FirstsSeen(lists(last), key, {}, Images(all, key), x);
  }

  /** Servers `s` and `s'` do not keep different elements with one key. */
  ghost predicate Agree<T>(lists: string -> seq<T>, key: T -> string, s: string, s': string, x: T, y: T) {
    KeptBy(lists, key, s, x) && KeptBy(lists, key, s', y) && key(x) == key(y) ==> x == y
  }

  ghost predicate AgreeOnShared<T(!new)>(lists: string -> seq<T>, key: T -> string, order: seq<string>) {
    forall s, s', x, y :: s in order && s' in order ==> Agree(lists, key, s, s', x, y)
  }

  /** Then the kept elements of all servers are those that each keeps. */
  lemma {:induction false} KeptIsUnion<T(!new)>(lists: string -> seq<T>, key: T -> string, order: seq<string>, x: T)
    requires AgreeOnShared(lists, key, order)
    ensures KeptInOrder(lists, key, order, x) <==> exists s :: s in order && KeptBy(lists, key, s, x)
  {
    if order == [] {
    } else {
      var n := |order| - 1;
      var front, last := order[..n], order[n];
      assert order == front + [last];
      KeptIsUnion(lists, key, front, x);
      KeptStep(lists, key, front, last, x);
      if KeptBy(lists, key, last, x) && key(x) in Images(Gather(lists, front), key) {
        var y := KeptWithKey(lists, key, front, key(x));
        KeptIsUnion(lists, key, front, y);
        var s :| s in front && KeptBy(lists, key, s, y);
        assert Agree(lists, key, last, s, x, y);
      }
    }
  }

  lemma KeptWithKey<T(!new)>(lists: string -> seq<T>, key: T -> string, order: seq<string>, k: string) returns (y: T)
    requires k in Images(Gather(lists, order), key)
    ensures KeptInOrder(lists, key, order, y) && key(y) == k
  {
    FirstsImages(Gather(lists, order), key, {});
    assert k in Images(Firsts(Gather(lists, order), key, {}), key);
    y :| y in Firsts(Gather(lists, order), key, {}) && key(y) == k;
  }

  lemma {:induction false} GatherFirst<T>(lists: string -> seq<T>, s: string, rest: seq<string>)
    ensures Gather(lists, [s] + rest) == lists(s) + Gather(lists, rest)
  {
    if rest == [] {
      assert [s] + rest == [s] && [s][..0] == [];
      assert Gather(lists, [s]) == lists(s);
    } else {
      var n := |rest| - 1;
      assert ([s] + rest)[..n + 1] == [s] + rest[..n];
      GatherFirst(lists, s, rest[..n]);
    }
  }

  /** The server walked first always keeps its elements. */
  lemma FirstWalkedKeeps<T(!new)>(lists: string -> seq<T>, key: T -> string, s: string, rest: seq<string>, x: T)
    requires KeptBy(lists, key, s, x)
    ensures KeptInOrder(lists, key, [s] + rest, x)
  {
    GatherFirst(lists, s, rest);
    FirstsAppend(lists(s), Gather(lists, rest), key, {});
  }

  /** The same elements are kept in both orders. */
  ghost predicate SameKept<T(!new)>(
    lists: string -> seq<T>, key: T -> string, order: seq<string>, order': seq<string>)
  {
    forall x :: KeptInOrder(lists, key, order, x) <==> KeptInOrder(lists, key, order', x)
  }

  ghost predicate Permutes(order: seq<string>, order': seq<string>) { multiset(order) == multiset(order') }

  lemma AgreementForgetsOrder<T(!new)>(
    lists: string -> seq<T>, key: T -> string, order: seq<string>, order': seq<string>)
    requires AgreeOnShared(lists, key, order) && Permutes(order, order')
    ensures SameKept(lists, key, order, order')
  {
    SameElements(order, order');
    assert forall s :: s in order <==> s in Elements(order);
    assert forall s :: s in order' <==> s in Elements(order');
    forall x ensures KeptInOrder(lists, key, order, x) <==> KeptInOrder(lists, key, order', x) {
      KeptIsUnion(lists, key, order, x);
      KeptIsUnion(lists, key, order', x);
    }
  }

  /** Some permutation walks the server first. */
  lemma WalkedFirst(order: seq<string>, s: string) returns (rest: seq<string>)
    requires s in order
    ensures Permutes(order, [s] + rest)
  {
    var i :| 0 <= i < |order| && order[i] == s;
    rest := order[..i] + order[i + 1..];
    assert order == order[..i] + [s] + order[i + 1..];
  }

  lemma OrderShows<T(!new)>(
    lists: string -> seq<T>, key: T -> string, order: seq<string>, s: string, s': string, x: T, y: T)
    requires s in order && s' in order
    requires forall order' :: Permutes(order, order') ==> SameKept(lists, key, order, order')
    ensures Agree(lists, key, s, s', x, y)
  {
    if KeptBy(lists, key, s, x) && KeptBy(lists, key, s', y) && key(x) == key(y) {
      var rest := WalkedFirst(order, s);
      var rest' := WalkedFirst(order, s');
      FirstWalkedKeeps(lists, key, s, rest, x);
      FirstWalkedKeeps(lists, key, s', rest', y);
      assert SameKept(lists, key, order, [s] + rest) && SameKept(lists, key, order, [s'] + rest');
      assert KeptInOrder(lists, key, order, x) && KeptInOrder(lists, key, order, y);
      KeptKeysDiffer(Gather(lists, order), key, x, y);
    }
  }

  /** Deduplication keeps the same in every order exactly when no two servers keep different elements with one key. */
  lemma KeptForgetsOrderIff<T(!new)>(lists: string -> seq<T>, key: T -> string, order: seq<string>)
    ensures (forall order' :: Permutes(order, order') ==> SameKept(lists, key, order, order')) <==>
            AgreeOnShared(lists, key, order)
  {
    if AgreeOnShared(lists, key, order) {
      forall order' | Permutes(order, order') ensures SameKept(lists, key, order, order') {
        AgreementForgetsOrder(lists, key, order, order');
      }
    }
    if forall order' :: Permutes(order, order') ==> SameKept(lists, key, order, order') {
      forall s, s', x, y | s in order && s' in order ensures Agree(lists, key, s, s', x, y) {
        OrderShows(lists, key, order, s, s', x, y);
      }
    }
  }

  // ---- The combined map ----

  lemma QualifyForgetsOrder(sha1: Digest, lists: string -> seq<ToolInfo>, order: seq<string>, order': seq<string>)
    requires AgreeOnShared(lists, RawToolIdentity, order) && Permutes(order, order')
    ensures Qualify(sha1, Gather(lists, order)) == Qualify(sha1, Gather(lists, order'))
  {
    AgreementForgetsOrder(lists, RawToolIdentity, order, order');
    SameKeptSameElements(lists, order, order');
    QualifyDependsOnKeptTools(sha1, Gather(lists, order), Gather(lists, order'));
  }

  lemma SameKeptSameElements(lists: string -> seq<ToolInfo>, order: seq<string>, order': seq<string>)
    requires SameKept(lists, RawToolIdentity, order, order')
    ensures Elements(Kept(Gather(lists, order))) == Elements(Kept(Gather(lists, order')))
  {
    forall x ensures x in Kept(Gather(lists, order)) <==> x in Kept(Gather(lists, order')) {
      assert KeptInOrder(lists, RawToolIdentity, order, x) <==> KeptInOrder(lists, RawToolIdentity, order', x);
    }
  }

  /**
    The combined map of a state is the same in whatever order its clients are walked, provided no two servers keep
    different tools with one raw identity.
   */
  lemma ListAllForgetsOrder(
    sha1: Digest, env: Env, a: Annotations, m: Manager, order: seq<string>, order': seq<string>)
    requires AgreeOnShared(Contributions(env, a, m.clients, m.file), RawToolIdentity, order) && Permutes(order, order')
    ensures ListAll(sha1, env, a, m.clients, m.file, order) == ListAll(sha1, env, a, m.clients, m.file, order')
  {
    QualifyForgetsOrder(sha1, Contributions(env, a, m.clients, m.file), order, order');
  }

  // ---- A cache file of the apps server's own ----

  /** What the first cache file would show is the apps server's own. */
  ghost predicate OwnCacheFile(env: Env, filters: map<string, ToolFilter>, file: CacheFile) {
    APPS_SERVER in filters ==> OwnCache(env, filters[APPS_SERVER], file)
  }

  ghost predicate OwnSnapshots(m: Manager) { forall s :: s in m.clients ==> OwnSnapshot(m.clients[s]) }

  lemma {:induction false} AlwaysOwn(env: Env, filters: map<string, ToolFilter>, file: CacheFile, ops: seq<Operation>)
    requires OwnCacheFile(env, filters, file)
    ensures var m := After(env, NewManager(env, filters, file), ops);
      OwnCacheFile(env, filters, m.file) && OwnSnapshots(m)
  {
    var start := NewManager(env, filters, file);
    if ops == [] {
      forall s | s in start.clients ensures OwnSnapshot(start.clients[s]) {
        if s == APPS_SERVER {
          StartsOwn(env, s, filters[s], file);
        }
      }
    } else {
      var front, op := ops[..|ops| - 1], ops[|ops| - 1];
      AlwaysOwn(env, filters, file, front);
      AlwaysSound(env, filters, file, front);
      var m := After(env, start, front);
      if APPS_SERVER in filters && op.fetch.Some? {
        WritesKeepOwnCache(env, APPS_SERVER, filters[APPS_SERVER], m.file, op.fetch, op.io);
      }
    }
  }

  /** A server's list names that server, and only a server with a valid name has one. */
  ghost predicate NamesItself(lists: string -> seq<ToolInfo>) {
    forall s, t :: OwnTool(lists, s, t)
  }

  predicate OwnTool(lists: string -> seq<ToolInfo>, s: string, t: ToolInfo) {
    t in lists(s) ==> t.serverName == s && NulFree(s)
  }

  lemma ContributionNamesItself(
    env: Env, a: Annotations, filters: map<string, ToolFilter>, m: Manager, s: string, x: ToolInfo)
    requires Sound(env, filters, m) && OwnCacheFile(env, filters, m.file) && OwnSnapshots(m)
    ensures OwnTool(Contributions(env, a, m.clients, m.file), s, x)
  {
    if x in Contributions(env, a, m.clients, m.file)(s) {
      assert SoundClient(env, s, filters[s], m.clients[s]);
      ClientNamesItself(env, a, m.clients[s], m.file, x);
    }
  }

  lemma ClientNamesItself(env: Env, a: Annotations, c: Client, file: CacheFile, x: ToolInfo)
    requires NamedClient(c) && OwnReady(c) && OwnSnapshot(c)
    requires c.server == APPS_SERVER ==> OwnCache(env, c.filter, file)
    requires CanList(c) && ToolsShown(env, a, c, file).Some? && x in ToolsShown(env, a, c, file).value
    ensures x.serverName == c.server && NulFree(c.server)
  {
    var t := ShownComesFrom(env, a, c, file, x);
    ListsOwn(env, c, file);
    if c.server == APPS_SERVER {
      AppsNameIsValid();
    }
    ValidIsNulFree(c.server);
  }

  lemma ValidIsNulFree(name: string)
    requires ValidServerName(name)
    ensures NulFree(name)
  {
  }

  lemma ServersDiffer(t: ToolInfo, u: ToolInfo)
    requires NulFree(t.serverName) && NulFree(u.serverName) && RawToolIdentity(t) == RawToolIdentity(u)
    ensures t.serverName == u.serverName
  {
    IdentityIsJoined(t);
    IdentityIsJoined(u);
    SplitAtNul(
      t.serverName, t.callableNamespace + "\0" + (Connector(t) + "\0" + (t.callableName + "\0" + t.tool.name)),
      u.serverName, u.callableNamespace + "\0" + (Connector(u) + "\0" + (u.callableName + "\0" + u.tool.name)));
  }

  /** A server agrees with itself, and lists that name their own servers share no identity with another's. */
  lemma OwnListsAgree(lists: string -> seq<ToolInfo>, order: seq<string>)
    requires NamesItself(lists)
    ensures AgreeOnShared(lists, RawToolIdentity, order)
  {
    forall s, s', x, y | s in order && s' in order ensures Agree(lists, RawToolIdentity, s, s', x, y) {
      OwnToolsAgree(lists, s, s', x, y);
    }
  }

  lemma OwnToolsAgree(lists: string -> seq<ToolInfo>, s: string, s': string, x: ToolInfo, y: ToolInfo)
    requires NamesItself(lists)
    ensures Agree(lists, RawToolIdentity, s, s', x, y)
  {
    if KeptBy(lists, RawToolIdentity, s, x) && KeptBy(lists, RawToolIdentity, s', y) {
      KeptIsGiven(lists(s), x);
      KeptIsGiven(lists(s'), y);
      assert OwnTool(lists, s, x) && OwnTool(lists, s', y);
      if RawToolIdentity(x) == RawToolIdentity(y) {
        ServersDiffer(x, y);
        KeptKeysDiffer(lists(s), RawToolIdentity, x, y);
      }
    }
  }

  /**
    From a first cache file of the apps server's own every listing of every run forgets the order, whenever each
    server's list was read.
   */
  lemma OwnFileForgetsOrder(
    sha1: Digest, env: Env, a: Annotations, filters: map<string, ToolFilter>, file: CacheFile, ops: seq<Operation>,
    moment: string -> nat, order: seq<string>, order': seq<string>)
    requires OwnCacheFile(env, filters, file) && Permutes(order, order')
    ensures var lists := ListedAt(env, a, NewManager(env, filters, file), ops, moment);
      Qualify(sha1, Gather(lists, order)) == Qualify(sha1, Gather(lists, order'))
  {
    var lists := ListedAt(env, a, NewManager(env, filters, file), ops, moment);
    OwnListings(env, a, filters, file, ops, moment);
    OwnListsAgree(lists, order);
    QualifyForgetsOrder(sha1, lists, order, order');
  }

  lemma OwnListings(
    env: Env, a: Annotations, filters: map<string, ToolFilter>, file: CacheFile, ops: seq<Operation>,
    moment: string -> nat)
    requires OwnCacheFile(env, filters, file)
    ensures NamesItself(ListedAt(env, a, NewManager(env, filters, file), ops, moment))
  {
    var lists := ListedAt(env, a, NewManager(env, filters, file), ops, moment);
    forall s, t ensures OwnTool(lists, s, t) {
      OwnInRun(env, a, filters, file, FirstOps(ops, moment(s)), s, t);
    }
  }

  lemma OwnInRun(
    env: Env, a: Annotations, filters: map<string, ToolFilter>, file: CacheFile, ops: seq<Operation>, s: string,
    t: ToolInfo)
    requires OwnCacheFile(env, filters, file)
    ensures var m := After(env, NewManager(env, filters, file), ops);
      OwnTool(Contributions(env, a, m.clients, m.file), s, t)
  {
    AlwaysSound(env, filters, file, ops);
    AlwaysOwn(env, filters, file, ops);
    ContributionNamesItself(env, a, filters, After(env, NewManager(env, filters, file), ops), s, t);
  }

  // ---- A cache file that shadows another server's tool ----

  /** One tool is always qualified, and keeps its instructions. */
  lemma SingleQualified(sha1: Digest, t: ToolInfo) returns (name: string)
    ensures var r := Qualify(sha1, [t]);
      r.Some? && name in r.value && r.value[name].serverInstructions == t.serverInstructions
  {
    SingleKept(t);
    QualifyStops(sha1, [t]);
    QualifyCount(sha1, [t]);
    var m := Qualify(sha1, [t]).value;
    assert RawToolIdentity(t) in Identities([t]);
    assert m.Keys != {};
    name :| name in m;
    var u := EntryComesFrom(sha1, [t], name);
  }

  lemma SingleKept(t: ToolInfo)
    ensures Kept([t]) == [t]
  {
    FirstsOfDistinct([t], RawToolIdentity, {});
  }

  lemma InstructionsShow(sha1: Digest, x: ToolInfo, y: ToolInfo)
    requires x.serverInstructions != y.serverInstructions
    ensures Qualify(sha1, [x]) != Qualify(sha1, [y])
  {
    var n := SingleQualified(sha1, x);
    var u := EntryComesFrom(sha1, [y], n);
  }

  lemma FirstOfTwo(sha1: Digest, x: ToolInfo, y: ToolInfo)
    requires RawToolIdentity(x) == RawToolIdentity(y)
    ensures Qualify(sha1, [x, y]) == Qualify(sha1, [x])
  {
    DuplicateDropped(x, y);
    SingleKept(x);
    QualifyDependsOnKeptTools(sha1, [x, y], [x]);
  }

  lemma GatherTwo<T>(lists: string -> seq<T>, s: string, s': string, x: T, y: T)
    requires lists(s) == [x] && lists(s') == [y]
    ensures Gather(lists, [s, s']) == [x, y]
  {
    assert [s, s'][..1] == [s] && [s][..0] == [];
    assert Gather(lists, [s]) == [x];
  }

  const OPEN := ToolFilter(None, {})

  lemma OpenFilterKeeps(env: Env, t: ToolInfo)
    requires ConnectorOk(env, t)
    ensures FilterTools([t], OPEN) == [t] && FilterDisallowed(env, [t]) == [t]
  {
    FilterKeepsAll([t], NameAllowed(OPEN));
    FilterKeepsAll([t], ConnectorAllowed(env));
  }

  lemma OtherNameIsValid()
    ensures ValidServerName("other") && "other" != APPS_SERVER
  {
    assert "other" == ['o', 't', 'h', 'e', 'r'];
    assert |"other"| != |APPS_SERVER|;
  }

  /** The tool of the other server, fetched with no instructions or cached with old ones. */
  function OthersTool(env: Env, raw: RawTool, instructions: Option<string>): ToolInfo {
    MakeInfo(env, "other", instructions, raw)
  }

  /** The apps server shows the cached copy while it starts, and the other server its own tool. */
  lemma ShadowedState(env: Env, a: Annotations, raw: RawTool)
    returns (filters: map<string, ToolFilter>, file: CacheFile, m: Manager)
    ensures filters == map[APPS_SERVER := OPEN, "other" := OPEN]
    ensures file == Stored(CACHE_SCHEMA_VERSION, [OthersTool(env, raw, Some("old"))])
    ensures m == After(env, NewManager(env, filters, file), [Started("other", Some((None, [raw])), Done)])
    ensures Contributions(env, a, m.clients, m.file)(APPS_SERVER) == [Annotate(a, OthersTool(env, raw, Some("old")))]
    ensures Contributions(env, a, m.clients, m.file)("other") == [Annotate(a, OthersTool(env, raw, None))]
  {
    var cached, own := OthersTool(env, raw, Some("old")), OthersTool(env, raw, None);
    filters := map[APPS_SERVER := OPEN, "other" := OPEN];
    file := Stored(CACHE_SCHEMA_VERSION, [cached]);
    var start, op := NewManager(env, filters, file), Started("other", Some((None, [raw])), Done);
    OtherNameIsValid();
    OpenFilterKeeps(env, cached);
    OpenFilterKeeps(env, own);
    assert Uncached(env, "other", None, [raw]) == [own];
    assert [op][..0] == [] && After(env, start, []) == start;
    m := After(env, start, [op]);
    assert m.clients[APPS_SERVER].snapshot == Some([cached]);
    assert m.clients["other"].outcome == Ready([own]);
  }

  /**
    A harmless cache file that lists another server's tool with old instructions: which of the two is in the combined
    map depends on the order in which the two servers are walked, whatever the tool and the digest.
   */
  lemma CacheShadowsTool(sha1: Digest, env: Env, a: Annotations, raw: RawTool)
    returns (filters: map<string, ToolFilter>, file: CacheFile, m: Manager)
    ensures HarmlessCache(env, filters, file)
    ensures m == After(env, NewManager(env, filters, file), [Started("other", Some((None, [raw])), Done)])
    ensures ListAll(sha1, env, a, m.clients, m.file, [APPS_SERVER, "other"]) !=
            ListAll(sha1, env, a, m.clients, m.file, ["other", APPS_SERVER])
  {
    filters, file, m := ShadowedState(env, a, raw);
    var lists := Contributions(env, a, m.clients, m.file);
    var cached, own := OthersTool(env, raw, Some("old")), OthersTool(env, raw, None);
    ShadowIsHarmless(env, filters, file, cached);
    AnnotationKeeps(a, cached);
    AnnotationKeeps(a, own);
    assert RawToolIdentity(cached) == RawToolIdentity(own);
    OrderDecides(sha1, lists, APPS_SERVER, "other", Annotate(a, cached), Annotate(a, own));
  }

  lemma AnnotationKeeps(a: Annotations, t: ToolInfo)
    ensures RawToolIdentity(Annotate(a, t)) == RawToolIdentity(t)
    ensures Annotate(a, t).serverInstructions == t.serverInstructions
  {
  }

  lemma ShadowIsHarmless(env: Env, filters: map<string, ToolFilter>, file: CacheFile, t: ToolInfo)
    requires filters == map[APPS_SERVER := OPEN, "other" := OPEN] && t.serverName == "other"
    requires file == Stored(CACHE_SCHEMA_VERSION, [t])
    ensures HarmlessCache(env, filters, file)
  {
    OtherNameIsValid();
  }

  lemma OrderDecides(sha1: Digest, lists: string -> seq<ToolInfo>, s: string, s': string, x: ToolInfo, y: ToolInfo)
    requires lists(s) == [x] && lists(s') == [y]
    requires RawToolIdentity(x) == RawToolIdentity(y) && x.serverInstructions != y.serverInstructions
    ensures Qualify(sha1, Gather(lists, [s, s'])) != Qualify(sha1, Gather(lists, [s', s]))
  {
    GatherTwo(lists, s, s', x, y);
    GatherTwo(lists, s', s, y, x);
    FirstOfTwo(sha1, x, y);
    FirstOfTwo(sha1, y, x);
    InstructionsShow(sha1, x, y);
  }
}
