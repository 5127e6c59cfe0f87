/** `qualify_tools`: from raw MCP tools to a map keyed by unique model-visible names. */
module Qualification {
  import opened Common
  import opened ToolNames
  import opened Ordering

  datatype Tool = Tool(name: string, description: Option<string>, inputSchema: string)

  datatype ToolInfo = ToolInfo(
    serverName: string, callableName: string, callableNamespace: string, serverInstructions: Option<string>,
    tool: Tool, connectorId: Option<string>, connectorName: Option<string>, pluginDisplayNames: seq<string>,
    connectorDescription: Option<string>)

  function Connector(t: ToolInfo): string {
    match t.connectorId case Some(id) => id case None => ""
  }

  function RawNamespaceIdentity(t: ToolInfo): string {
    t.serverName + "\0" + t.callableNamespace + "\0" + Connector(t)
  }

  function RawToolIdentity(t: ToolInfo): string {
    RawNamespaceIdentity(t) + "\0" + t.callableName + "\0" + t.tool.name
  }

  // ---- Candidates ----

  datatype Candidate = Candidate(
    tool: ToolInfo, rawNamespaceIdentity: string, rawToolIdentity: string,
    callableNamespace: string, callableName: string)

  function MakeCandidate(t: ToolInfo): Candidate {
    Candidate(t, RawNamespaceIdentity(t), RawToolIdentity(t), Sanitize(t.callableNamespace), Sanitize(t.callableName))
  }

  /** The tools that survive deduplication, in input order. */
  function Kept(tools: seq<ToolInfo>): seq<ToolInfo> {
    Firsts(tools, RawToolIdentity, {})
  }

  predicate CleanCandidate(c: Candidate) {
    Clean(c.callableNamespace) && Clean(c.callableName)
  }

  /** The keys under which two different identities meet. */
  ghost function Colliding<K(!new)>(pairs: set<(K, string)>): set<K> {
    set p, q | p in pairs && q in pairs && p.0 == q.0 && p.1 != q.1 :: p.0
  }

  function NamespacePair(c: Candidate): (string, string) {
    (c.callableNamespace, c.rawNamespaceIdentity)
  }

  function ToolPair(c: Candidate): ((string, string), string) {
    ((c.callableNamespace, c.callableName), c.rawToolIdentity)
  }

  function RenameNamespace(sha1: Digest, colliding: set<string>, c: Candidate): (r: Candidate)
    ensures CleanCandidate(c) ==> CleanCandidate(r)
    ensures r.tool == c.tool && r.rawToolIdentity == c.rawToolIdentity
  {
    if c.callableNamespace in colliding then
      c.(callableNamespace := AppendNamespaceHash(sha1, c.callableNamespace, c.rawNamespaceIdentity))
    else c
  }

  function RenameTool(sha1: Digest, colliding: set<(string, string)>, c: Candidate): (r: Candidate)
    ensures CleanCandidate(c) ==> CleanCandidate(r)
    ensures r.tool == c.tool && r.rawToolIdentity == c.rawToolIdentity
  {
    if (c.callableNamespace, c.callableName) in colliding then
      c.(callableName := AppendHash(sha1, c.callableName, c.rawToolIdentity))
    else c
  }

  ghost function NamespacesRenamed(sha1: Digest, cs: seq<Candidate>): seq<Candidate> {
    var colliding := Colliding(Elements(Apply(NamespacePair, cs)));
    Apply((c: Candidate) => RenameNamespace(sha1, colliding, c), cs)
  }

  ghost function ToolsRenamed(sha1: Digest, cs: seq<Candidate>): seq<Candidate> {
    var colliding := Colliding(Elements(Apply(ToolPair, cs)));
    Apply((c: Candidate) => RenameTool(sha1, colliding, c), cs)
  }

  function Identity(c: Candidate): string { c.rawToolIdentity }

  function WithParts(t: ToolInfo, p: Parts): ToolInfo {
    t.(callableNamespace := p.namespace, callableName := p.name)
  }

  type Allocator = (Candidate, set<string>) -> Option<Parts>

  function HashAllocator(sha1: Digest): Allocator {
    (c: Candidate, used: set<string>) =>
      Unique(sha1, c.callableNamespace, c.callableName, c.rawToolIdentity, used)
  }

  /** The final loop: allocate a name for each candidate in turn. `None` says that some allocation never returns. */
  function AllocateAll(alloc: Allocator, cs: seq<Candidate>, used: set<string>, acc: map<string, ToolInfo>)
    : Option<map<string, ToolInfo>>
  {
    if cs == [] then Some(acc)
    else
      match alloc(cs[0], used)
      case None => None
      case Some(p) =>
        AllocateAll(alloc, cs[1..], used + {p.Qualified()}, acc[p.Qualified() := WithParts(cs[0].tool, p)])
  }

  ghost function Prepared(sha1: Digest, tools: seq<ToolInfo>): seq<Candidate> {
    ToolsRenamed(sha1, NamespacesRenamed(sha1, Apply(MakeCandidate, Kept(tools))))
  }

  ghost function Qualify(sha1: Digest, tools: seq<ToolInfo>): Option<map<string, ToolInfo>> {
    AllocateAll(HashAllocator(sha1), Sort(Prepared(sha1, tools), Identity), {}, map[])
  }

  ghost function Identities(tools: seq<ToolInfo>): set<string> {
    Images(tools, RawToolIdentity)
  }

  // ---- Order independence ----

  lemma ApplyElements<T(!new), U(!new)>(f: T -> U, s: seq<T>)
    ensures forall y :: y in Apply(f, s) <==> exists x :: x in s && y == f(x)
  {
    forall y ensures y in Apply(f, s) <==> exists x :: x in s && y == f(x) {
      if y in Apply(f, s) {
        var i :| 0 <= i < |s| && Apply(f, s)[i] == y;
        assert s[i] in s;
      }
      if x :| x in s && y == f(x) {
        var i :| 0 <= i < |s| && s[i] == x;
        assert Apply(f, s)[i] == y;
      }
    }
  }

  lemma ApplySameElements<T(!new), U(!new)>(f: T -> U, s: seq<T>, t: seq<T>)
    requires Elements(s) == Elements(t)
    ensures Elements(Apply(f, s)) == Elements(Apply(f, t))
  {
    ApplyElements(f, s);
    ApplyElements(f, t);
    assert forall x :: x in s <==> x in Elements(s);
    assert forall x :: x in t <==> x in Elements(t);
  }

  /** After every pass a candidate still belongs to the tool at the same place. */
  lemma PreparedAligned(sha1: Digest, tools: seq<ToolInfo>)
    ensures var firsts, cs := Kept(tools), Prepared(sha1, tools);
            && |cs| == |firsts|
            && (forall i :: 0 <= i < |cs| ==> cs[i].tool == firsts[i])
            && (forall i :: 0 <= i < |cs| ==> cs[i].rawToolIdentity == RawToolIdentity(firsts[i]))
            && (forall i :: 0 <= i < |cs| ==> CleanCandidate(cs[i]))
            && DistinctKeys(cs, Identity)
  {
    FirstsDistinct(tools, RawToolIdentity, {});
  }

  lemma PreparedSameElements(sha1: Digest, tools1: seq<ToolInfo>, tools2: seq<ToolInfo>)
    requires Elements(Kept(tools1)) == Elements(Kept(tools2))
    ensures Elements(Prepared(sha1, tools1)) == Elements(Prepared(sha1, tools2))
  {
    var cs1, cs2 := Apply(MakeCandidate, Kept(tools1)), Apply(MakeCandidate, Kept(tools2));
    ApplySameElements(MakeCandidate, Kept(tools1), Kept(tools2));
    ApplySameElements(NamespacePair, cs1, cs2);
    var namespaces := Colliding(Elements(Apply(NamespacePair, cs1)));
    ApplySameElements((c: Candidate) => RenameNamespace(sha1, namespaces, c), cs1, cs2);
    var rs1, rs2 := NamespacesRenamed(sha1, cs1), NamespacesRenamed(sha1, cs2);
    ApplySameElements(ToolPair, rs1, rs2);
    var tools := Colliding(Elements(Apply(ToolPair, rs1)));
    ApplySameElements((c: Candidate) => RenameTool(sha1, tools, c), rs1, rs2);
  }

  /** The result depends only on which tools are kept, not on their order. */
  lemma QualifyDependsOnKeptTools(sha1: Digest, tools1: seq<ToolInfo>, tools2: seq<ToolInfo>)
    requires Elements(Kept(tools1)) == Elements(Kept(tools2))
    ensures Qualify(sha1, tools1) == Qualify(sha1, tools2)
  {
    PreparedSameElements(sha1, tools1, tools2);
    PreparedAligned(sha1, tools1);
    PreparedAligned(sha1, tools2);
    SortForgetsOrder(Prepared(sha1, tools1), Prepared(sha1, tools2), Identity);
  }

  /** Tools with different identities are qualified the same way in every order. */
  lemma QualifyOrderIndependent(sha1: Digest, tools1: seq<ToolInfo>, tools2: seq<ToolInfo>)
    requires multiset(tools1) == multiset(tools2)
    requires DistinctKeys(tools1, RawToolIdentity)
    ensures Qualify(sha1, tools1) == Qualify(sha1, tools2)
  {
    PermutedKeysDistinct(tools1, tools2, RawToolIdentity);
    FirstsOfDistinct(tools1, RawToolIdentity, {});
    FirstsOfDistinct(tools2, RawToolIdentity, {});
    SameElements(tools1, tools2);
    QualifyDependsOnKeptTools(sha1, tools1, tools2);
  }

  // ---- Uniqueness and conservation ----

  /** All fields but the two callable parts agree. */
  predicate OnlyPartsDiffer(u: ToolInfo, t: ToolInfo) {
    u == t.(callableNamespace := u.callableNamespace, callableName := u.callableName)
  }

  /** `m` lists the tool under `name`, with nothing but its callable parts changed. */
  ghost predicate Listed(m: map<string, ToolInfo>, t: ToolInfo, name: string) {
    && name in m
    && OnlyPartsDiffer(m[name], t)
    && name == m[name].callableNamespace + m[name].callableName
    && Clean(name) && ByteLen(name) <= MAX_TOOL_NAME_LENGTH
  }

  /** `m` lists each tool under the name at the same place; the names are all different, and none is in `used`. */
  ghost predicate AllListed(m: map<string, ToolInfo>, tools: seq<ToolInfo>, names: seq<string>, used: set<string>) {
    && |names| == |tools| && Distinct(names)
    && forall i :: 0 <= i < |tools| ==> names[i] !in used && Listed(m, tools[i], names[i])
  }

  function ToolOf(c: Candidate): ToolInfo { c.tool }

  /** Every name the allocator gives is new, clean and at most 64 bytes. */
  ghost predicate GivesFreshNames(alloc: Allocator) {
    forall c, used :: CleanCandidate(c) && alloc(c, used).Some? ==>
      var q := alloc(c, used).value.Qualified();
      q !in used && Clean(q) && ByteLen(q) <= MAX_TOOL_NAME_LENGTH
  }

  lemma HashAllocatorIsFresh(sha1: Digest)
    ensures GivesFreshNames(HashAllocator(sha1))
  {
    forall c: Candidate, used: set<string> | CleanCandidate(c) && HashAllocator(sha1)(c, used).Some?
      ensures var q := HashAllocator(sha1)(c, used).value.Qualified();
              q !in used && Clean(q) && ByteLen(q) <= MAX_TOOL_NAME_LENGTH
    {
      UniqueSound(sha1, c.callableNamespace, c.callableName, c.rawToolIdentity, used);
    }
  }

  lemma ListedCons(
    m: map<string, ToolInfo>, t: ToolInfo, p: Parts, tools: seq<ToolInfo>, names: seq<string>, used: set<string>)
    requires AllListed(m, tools, names, used + {p.Qualified()})
    requires p.Qualified() in m && m[p.Qualified()] == WithParts(t, p)
    requires p.Qualified() !in used && Clean(p.Qualified()) && ByteLen(p.Qualified()) <= MAX_TOOL_NAME_LENGTH
    ensures AllListed(m, [t] + tools, [p.Qualified()] + names, used)
    ensures Elements([p.Qualified()] + names) == {p.Qualified()} + Elements(names)
  {
    var q := p.Qualified();
    assert Listed(m, t, q);
    forall i | 0 <= i < |[t] + tools|
      ensures ([q] + names)[i] !in used && Listed(m, ([t] + tools)[i], ([q] + names)[i])
    {
      if i > 0 {
        assert names[i - 1] !in used + {q} && Listed(m, tools[i - 1], names[i - 1]);
      }
    }
  }

  /** The final loop gives every candidate a name of its own and keeps all earlier entries. */
  lemma {:induction false} AllocateAllSound(
    alloc: Allocator, cs: seq<Candidate>, used: set<string>, acc: map<string, ToolInfo>) returns (names: seq<string>)
    requires GivesFreshNames(alloc)
    requires acc.Keys <= used
    requires forall i :: 0 <= i < |cs| ==> CleanCandidate(cs[i])
    ensures var r := AllocateAll(alloc, cs, used, acc);
            r.Some? ==>
              && AllListed(r.value, Apply(ToolOf, cs), names, used)
              && r.value.Keys == acc.Keys + Elements(names)
              && (forall k :: k in acc ==> r.value[k] == acc[k])
  {
    names := [];
    if cs == [] {
    } else {
      match alloc(cs[0], used)
      case None =>
      case Some(p) =>
        var q := p.Qualified();
        var acc' := acc[q := WithParts(cs[0].tool, p)];
        var rest := AllocateAllSound(alloc, cs[1..], used + {q}, acc');
        names := [q] + rest;
        var r := AllocateAll(alloc, cs[1..], used + {q}, acc');
        if r.Some? {
          ListedCons(r.value, cs[0].tool, p, Apply(ToolOf, cs[1..]), rest, used);
          assert Apply(ToolOf, cs) == [cs[0].tool] + Apply(ToolOf, cs[1..]);
        }
    }
  }

  lemma SortKeepsTools(ps: seq<Candidate>, kept: seq<ToolInfo>)
    requires |ps| == |kept|
    requires forall i :: 0 <= i < |ps| ==> CleanCandidate(ps[i]) && ps[i].tool == kept[i]
    ensures var cs := Sort(ps, Identity);
            && (forall i :: 0 <= i < |cs| ==> CleanCandidate(cs[i]))
            && multiset(Apply(ToolOf, cs)) == multiset(kept)
  {
    var cs := Sort(ps, Identity);
    forall i | 0 <= i < |cs| ensures CleanCandidate(cs[i]) {
      assert cs[i] in multiset(ps);
    }
    SortApply(ps, Identity, ToolOf);
    assert Apply(ToolOf, ps) == kept;
  }

  /**
    Every result of `qualify_tools` lists exactly the tools kept by deduplication. No two share a name; every
    name is its entry's namespace followed by its tool name, clean and at most 64 bytes; and an entry differs
    from the tool it came from only in those two parts.
   */
  lemma QualifySound(sha1: Digest, tools: seq<ToolInfo>) returns (order: seq<ToolInfo>, names: seq<string>)
    ensures var r := Qualify(sha1, tools);
            r.Some? ==>
              && multiset(order) == multiset(Kept(tools))
              && AllListed(r.value, order, names, {})
              && r.value.Keys == Elements(names)
  {
    PreparedAligned(sha1, tools);
    HashAllocatorIsFresh(sha1);
    order, names := SoundOnCandidates(HashAllocator(sha1), Prepared(sha1, tools), Kept(tools));
  }

  lemma SoundOnCandidates(alloc: Allocator, ps: seq<Candidate>, kept: seq<ToolInfo>)
    returns (order: seq<ToolInfo>, names: seq<string>)
    requires GivesFreshNames(alloc) && |ps| == |kept|
    requires forall i :: 0 <= i < |ps| ==> CleanCandidate(ps[i]) && ps[i].tool == kept[i]
    ensures var r := AllocateAll(alloc, Sort(ps, Identity), {}, map[]);
            r.Some? ==>
              && multiset(order) == multiset(kept)
              && AllListed(r.value, order, names, {})
              && r.value.Keys == Elements(names)
  {
    SortKeepsTools(ps, kept);
    order := Apply(ToolOf, Sort(ps, Identity));
    names := AllocateAllSound(alloc, Sort(ps, Identity), {}, map[]);
  }

  /** There are as many entries as different raw identities: no insertion overwrites another. */
  lemma QualifyCount(sha1: Digest, tools: seq<ToolInfo>)
    ensures var r := Qualify(sha1, tools); r.Some? ==> |r.value| == |Identities(tools)|
  {
    var order, names := QualifySound(sha1, tools);
    if Qualify(sha1, tools).Some? {
      assert |order| == |multiset(order)| == |Kept(tools)|;
      DistinctCount(names);
      FirstsDistinct(tools, RawToolIdentity, {});
      FirstsImages(tools, RawToolIdentity, {});
      ImagesCount(Kept(tools), RawToolIdentity);
    }
  }

  // ---- Termination ----

  lemma {:induction false} AllocateAllStops(
    alloc: Allocator, cs: seq<Candidate>, used: set<string>, acc: map<string, ToolInfo>, n: nat)
    requires GivesFreshNames(alloc) && |used| + |cs| <= n
    requires forall i :: 0 <= i < |cs| ==> CleanCandidate(cs[i])
    requires forall i, u :: 0 <= i < |cs| && |u| < n ==> alloc(cs[i], u).Some?
    ensures AllocateAll(alloc, cs, used, acc).Some?
  {
    if cs == [] {
    } else {
      var p := alloc(cs[0], used).value;
      AllocateAllStops(alloc, cs[1..], used + {p.Qualified()}, acc[p.Qualified() := WithParts(cs[0].tool, p)], n);
    }
  }

  /** Whether the first `n` allocation attempts for a candidate hash differently. */
  ghost predicate HashesDiffer(sha1: Digest, n: nat, c: Candidate) {
    CleanCandidate(c) && SuffixesDiffer(sha1, c.rawToolIdentity, n)
  }

  lemma AllocatorStops(sha1: Digest, c: Candidate, used: set<string>, n: nat)
    requires |used| < n <= U32_MAX
    ensures HashesDiffer(sha1, n, c) ==> HashAllocator(sha1)(c, used).Some?
  {
    if HashesDiffer(sha1, n, c) {
      AllocationStops(sha1, c.callableNamespace, c.callableName, c.rawToolIdentity, used);
    }
  }

  /** No tool's first `n` hash suffixes repeat, `n` being the number of tools. */
  ghost predicate SuffixesNeverRepeat(sha1: Digest, tools: seq<ToolInfo>) {
    forall i :: 0 <= i < |tools| ==> SuffixesDiffer(sha1, RawToolIdentity(tools[i]), |tools|)
  }

  /** `qualify_tools` returns whenever no kept tool's hash suffixes repeat. */
  lemma QualifyStops(sha1: Digest, tools: seq<ToolInfo>)
    ensures |Kept(tools)| <= U32_MAX && SuffixesNeverRepeat(sha1, Kept(tools)) ==> Qualify(sha1, tools).Some?
  {
    if |Kept(tools)| <= U32_MAX && SuffixesNeverRepeat(sha1, Kept(tools)) {
      var ps, n := Prepared(sha1, tools), |Kept(tools)|;
      PreparedAligned(sha1, tools);
      assert forall i :: 0 <= i < |ps| ==> HashesDiffer(sha1, n, ps[i]);
      StopsOnCandidates(sha1, ps, n);
    }
  }

  lemma StopsOnCandidates(sha1: Digest, ps: seq<Candidate>, n: nat)
    requires |ps| == n <= U32_MAX
    requires forall i :: 0 <= i < |ps| ==> HashesDiffer(sha1, n, ps[i])
    ensures AllocateAll(HashAllocator(sha1), Sort(ps, Identity), {}, map[]).Some?
  {
    SortKeepsAll(ps, Identity, c => HashesDiffer(sha1, n, c));
    AllocationsStop(sha1, Sort(ps, Identity), n);
  }

  lemma AllocationsStop(sha1: Digest, cs: seq<Candidate>, n: nat)
    requires |cs| == n <= U32_MAX
    requires forall i :: 0 <= i < |cs| ==> HashesDiffer(sha1, n, cs[i])
    ensures AllocateAll(HashAllocator(sha1), cs, {}, map[]).Some?
  {
    forall i, u: set<string> | 0 <= i < |cs| && |u| < n ensures HashAllocator(sha1)(cs[i], u).Some? {
      AllocatorStops(sha1, cs[i], u, n);
    }
    HashAllocatorIsFresh(sha1);
    AllocateAllStops(HashAllocator(sha1), cs, {}, map[], n);
  }

  // ---- Readable names ----

  function PlainParts(t: ToolInfo): Parts {
    Parts(Sanitize(t.callableNamespace), Sanitize(t.callableName))
  }

  function PlainName(t: ToolInfo): string { PlainParts(t).Qualified() }

  /** Nothing in the list calls for a hash: names are short, and neither namespaces nor full names collide. */
  ghost predicate NothingCollides(kept: seq<ToolInfo>) {
    && (forall i :: 0 <= i < |kept| ==> ByteLen(PlainName(kept[i])) <= MAX_TOOL_NAME_LENGTH)
    && (forall i, j :: 0 <= i < j < |kept| ==> PlainName(kept[i]) != PlainName(kept[j]))
    && forall i, j :: 0 <= i < |kept| && 0 <= j < |kept|
                   && Sanitize(kept[i].callableNamespace) == Sanitize(kept[j].callableNamespace)
                   ==> RawNamespaceIdentity(kept[i]) == RawNamespaceIdentity(kept[j])
  }

  lemma NoNamespaceRenamed(sha1: Digest, cs: seq<Candidate>)
    requires forall i, j :: 0 <= i < |cs| && 0 <= j < |cs| && cs[i].callableNamespace == cs[j].callableNamespace
                         ==> cs[i].rawNamespaceIdentity == cs[j].rawNamespaceIdentity
    ensures NamespacesRenamed(sha1, cs) == cs
  {
    NoneCollide(Apply(NamespacePair, cs));
    ApplyFixed((c: Candidate) => RenameNamespace(sha1, {}, c), cs);
  }

  lemma NoneCollide<K(!new)>(pairs: seq<(K, string)>)
    requires forall i, j :: 0 <= i < |pairs| && 0 <= j < |pairs| && pairs[i].0 == pairs[j].0
                         ==> pairs[i].1 == pairs[j].1
    ensures Colliding(Elements(pairs)) == {}
  {
  }

  lemma NoToolRenamed(sha1: Digest, cs: seq<Candidate>)
    requires DistinctKeys(cs, CandidatePlain)
    ensures ToolsRenamed(sha1, cs) == cs
  {
    forall i, j | 0 <= i < j < |cs| ensures ToolPair(cs[i]).0 != ToolPair(cs[j]).0 {
      assert CandidatePlain(cs[i]) != CandidatePlain(cs[j]);
    }
    NoneCollide(Apply(ToolPair, cs));
    ApplyFixed((c: Candidate) => RenameTool(sha1, {}, c), cs);
  }

  lemma ApplyFixed<T>(f: T -> T, s: seq<T>)
    requires forall i :: 0 <= i < |s| ==> f(s[i]) == s[i]
    ensures Apply(f, s) == s
  {
  }

  function CandidatePlain(c: Candidate): string { c.callableNamespace + c.callableName }

  function CandidateParts(c: Candidate): Parts { Parts(c.callableNamespace, c.callableName) }

  ghost predicate PrefersPlain(alloc: Allocator) {
    forall c, used :: ByteLen(CandidatePlain(c)) <= MAX_TOOL_NAME_LENGTH && CandidatePlain(c) !in used ==>
      alloc(c, used) == Some(CandidateParts(c))
  }

  /** Each candidate entered under its readable name. */
  ghost function PlainMap(cs: seq<Candidate>, acc: map<string, ToolInfo>): map<string, ToolInfo> {
    if cs == [] then acc
    else PlainMap(cs[1..], acc[CandidatePlain(cs[0]) := WithParts(cs[0].tool, CandidateParts(cs[0]))])
  }

  lemma {:induction false} PlainMapKeeps(cs: seq<Candidate>, acc: map<string, ToolInfo>, q: string)
    requires q in acc && forall i :: 0 <= i < |cs| ==> CandidatePlain(cs[i]) != q
    ensures q in PlainMap(cs, acc) && PlainMap(cs, acc)[q] == acc[q]
  {
    if cs == [] {
    } else {
      PlainMapKeeps(cs[1..], acc[CandidatePlain(cs[0]) := WithParts(cs[0].tool, CandidateParts(cs[0]))], q);
    }
  }

  lemma {:induction false} PlainMapLists(cs: seq<Candidate>, acc: map<string, ToolInfo>, i: nat)
    requires DistinctKeys(cs, CandidatePlain) && i < |cs|
    ensures var m, q := PlainMap(cs, acc), CandidatePlain(cs[i]);
            q in m && m[q] == WithParts(cs[i].tool, CandidateParts(cs[i]))
  {
    var acc' := acc[CandidatePlain(cs[0]) := WithParts(cs[0].tool, CandidateParts(cs[0]))];
    if i == 0 {
      PlainMapKeeps(cs[1..], acc', CandidatePlain(cs[0]));
    } else {
      PlainMapLists(cs[1..], acc', i - 1);
    }
  }

  lemma {:induction false} PlainMapKeys(cs: seq<Candidate>, acc: map<string, ToolInfo>)
    ensures PlainMap(cs, acc).Keys == acc.Keys + Elements(Apply(CandidatePlain, cs))
  {
    if cs == [] {
    } else {
      var q := CandidatePlain(cs[0]);
      PlainMapKeys(cs[1..], acc[q := WithParts(cs[0].tool, CandidateParts(cs[0]))]);
      var rest := Apply(CandidatePlain, cs[1..]);
      assert Apply(CandidatePlain, cs) == [q] + rest;
      assert Elements([q] + rest) == {q} + Elements(rest);
    }
  }

  lemma {:induction false} AllocatePlain(
    alloc: Allocator, cs: seq<Candidate>, used: set<string>, acc: map<string, ToolInfo>)
    requires PrefersPlain(alloc)
    requires DistinctKeys(cs, CandidatePlain)
    requires forall i :: 0 <= i < |cs| ==> ByteLen(CandidatePlain(cs[i])) <= MAX_TOOL_NAME_LENGTH
    requires forall i :: 0 <= i < |cs| ==> CandidatePlain(cs[i]) !in used
    ensures AllocateAll(alloc, cs, used, acc) == Some(PlainMap(cs, acc))
  {
    if cs == [] {
    } else {
      assert alloc(cs[0], used) == Some(CandidateParts(cs[0]));
      AllocatePlain(alloc, cs[1..], used + {CandidatePlain(cs[0])},
                    acc[CandidatePlain(cs[0]) := WithParts(cs[0].tool, CandidateParts(cs[0]))]);
    }
  }

  lemma PermutedDistinct<T(!new)>(s: seq<T>, t: seq<T>)
    requires Distinct(s) && multiset(s) == multiset(t)
    ensures Distinct(t)
  {
    DistinctCount(s);
    forall i, j | 0 <= i < j < |t| ensures t[i] != t[j] {
      if t[i] == t[j] {
        assert t == t[..i] + [t[i]] + t[i + 1..j] + [t[j]] + t[j + 1..];
        assert multiset(s)[t[i]] >= 2;
        OnceIfDistinct(s, t[i]);
      }
    }
  }

  lemma PermutedKeysDistinct<T(!new)>(s: seq<T>, t: seq<T>, key: T -> string)
    requires multiset(s) == multiset(t) && DistinctKeys(s, key)
    ensures DistinctKeys(t, key)
  {
    PermutedDistinct(s, t);
    forall i, j | 0 <= i < j < |t| ensures key(t[i]) != key(t[j]) {
      assert t[i] in multiset(s) && t[j] in multiset(s);
    }
  }

  lemma OnceIfDistinct<T>(s: seq<T>, x: T)
    requires Distinct(s)
    ensures multiset(s)[x] <= 1
  {
    if s != [] {
      assert s == [s[0]] + s[1..];
      OnceIfDistinct(s[1..], x);
    }
  }

  lemma HashAllocatorPrefersPlain(sha1: Digest)
    ensures PrefersPlain(HashAllocator(sha1))
  {
  }

  lemma SortKeepsPlainDistinct(ps: seq<Candidate>)
    requires DistinctKeys(ps, CandidatePlain)
    ensures DistinctKeys(Sort(ps, Identity), CandidatePlain)
  {
    var sorted := Apply(CandidatePlain, Sort(ps, Identity));
    SortApply(ps, Identity, CandidatePlain);
    PermutedDistinct(Apply(CandidatePlain, ps), sorted);
    assert forall i, j :: 0 <= i < j < |sorted| ==> sorted[i] != sorted[j];
  }

  lemma PlainOnCandidates(sha1: Digest, ps: seq<Candidate>)
    requires DistinctKeys(ps, CandidatePlain)
    requires forall i :: 0 <= i < |ps| ==> ByteLen(CandidatePlain(ps[i])) <= MAX_TOOL_NAME_LENGTH
    ensures AllocateAll(HashAllocator(sha1), Sort(ps, Identity), {}, map[])
            == Some(PlainMap(Sort(ps, Identity), map[]))
  {
    SortKeepsPlainDistinct(ps);
    SortKeepsAll(ps, Identity, c => ByteLen(CandidatePlain(c)) <= MAX_TOOL_NAME_LENGTH);
    HashAllocatorPrefersPlain(sha1);
    AllocatePlain(HashAllocator(sha1), Sort(ps, Identity), {}, map[]);
  }

  lemma SortedPlainKeys(ps: seq<Candidate>)
    ensures PlainMap(Sort(ps, Identity), map[]).Keys == Elements(Apply(CandidatePlain, ps))
  {
    var cs := Sort(ps, Identity);
    SortApply(ps, Identity, CandidatePlain);
    SameElements(Apply(CandidatePlain, ps), Apply(CandidatePlain, cs));
    PlainMapKeys(cs, map[]);
  }

  lemma SortedPlainLists(ps: seq<Candidate>, i: nat)
    requires DistinctKeys(ps, CandidatePlain) && i < |ps|
    ensures var m, q := PlainMap(Sort(ps, Identity), map[]), CandidatePlain(ps[i]);
            q in m && m[q] == WithParts(ps[i].tool, CandidateParts(ps[i]))
  {
    SortKeepsPlainDistinct(ps);
    var j := SortFinds(ps, Identity, i);
    PlainMapLists(Sort(ps, Identity), map[], j);
  }

  lemma SameElements<T(!new)>(s: seq<T>, t: seq<T>)
    requires multiset(s) == multiset(t)
    ensures Elements(s) == Elements(t)
  {
    forall x ensures x in s <==> x in t {
      assert x in multiset(s) <==> x in multiset(t);
    }
  }

  lemma PlainCandidates(kept: seq<ToolInfo>)
    requires NothingCollides(kept)
    ensures var ps := Apply(MakeCandidate, kept);
            && DistinctKeys(ps, CandidatePlain)
            && (forall i :: 0 <= i < |ps| ==> ByteLen(CandidatePlain(ps[i])) <= MAX_TOOL_NAME_LENGTH)
            && Apply(CandidatePlain, ps) == Apply(PlainName, kept)
  {
    var ps := Apply(MakeCandidate, kept);
    assert forall i :: 0 <= i < |kept| ==> CandidatePlain(ps[i]) == PlainName(kept[i]);
  }

  lemma QualifyPlain(sha1: Digest, tools: seq<ToolInfo>)
    requires NothingCollides(Kept(tools))
    ensures Qualify(sha1, tools) == Some(PlainMap(Sort(Apply(MakeCandidate, Kept(tools)), Identity), map[]))
  {
    var ps := Apply(MakeCandidate, Kept(tools));
    PlainCandidates(Kept(tools));
    NoNamespaceRenamed(sha1, ps);
    NoToolRenamed(sha1, ps);
    PlainOnCandidates(sha1, ps);
  }

  /** When nothing collides no name is hashed: every tool is listed under its sanitised namespace and name. */
  lemma ReadableNamesKept(sha1: Digest, tools: seq<ToolInfo>)
    requires NothingCollides(Kept(tools))
    ensures var r := Qualify(sha1, tools);
            && r.Some?
            && r.value.Keys == Elements(Apply(PlainName, Kept(tools)))
            && forall i :: 0 <= i < |Kept(tools)| ==>
                 var t := Kept(tools)[i];
                 PlainName(t) in r.value && r.value[PlainName(t)] == WithParts(t, PlainParts(t))
  {
    var kept := Kept(tools);
    var ps := Apply(MakeCandidate, kept);
    QualifyPlain(sha1, tools);
    PlainCandidates(kept);
    SortedPlainKeys(ps);
    forall i | 0 <= i < |kept|
      ensures var m := Qualify(sha1, tools).value;
              PlainName(kept[i]) in m && m[PlainName(kept[i])] == WithParts(kept[i], PlainParts(kept[i]))
    {
      SortedPlainLists(ps, i);
    }
  }
}
