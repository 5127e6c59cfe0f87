/** The loops of `qualify_tools`, pass by pass, proved against the functions of `Qualification`. */
module QualificationPasses {
  import opened Common
  import opened ToolNames
  import opened Ordering
  import opened Qualification
  import opened QualificationNames

  lemma ApplyAppend<T, U>(f: T -> U, s: seq<T>, x: T)
    ensures Apply(f, s + [x]) == Apply(f, s) + [f(x)]
  {
  }

  ghost function AppendFirst(kept: seq<ToolInfo>, tools: seq<ToolInfo>, i: nat, seen: set<string>): (r: seq<ToolInfo>)
    requires i < |tools| && RawToolIdentity(tools[i]) !in seen
    ensures r == kept + [tools[i]]
    ensures r + Firsts(tools[i + 1..], RawToolIdentity, seen + {RawToolIdentity(tools[i])})
            == kept + Firsts(tools[i..], RawToolIdentity, seen)
  {
    assert tools[i..][1..] == tools[i + 1..];
    kept + [tools[i]]
  }

  /** First pass: skip repeated raw identities and sanitise the rest. */
  method CollectCandidates(tools: seq<ToolInfo>) returns (candidates: seq<Candidate>)
    ensures candidates == Apply(MakeCandidate, Kept(tools))
  {
    var seen: set<string> := {};
    candidates := [];
    ghost var kept: seq<ToolInfo> := [];
    for i := 0 to |tools|
      invariant candidates == Apply(MakeCandidate, kept)
      invariant kept + Firsts(tools[i..], RawToolIdentity, seen) == Kept(tools)
    {
      var tool := tools[i];
      var rawToolIdentity := RawToolIdentity(tool);
      assert tools[i..][1..] == tools[i + 1..];
      if rawToolIdentity !in seen {
        candidates := candidates + [MakeCandidate(tool)];
        ApplyAppend(MakeCandidate, kept, tool);
        kept := AppendFirst(kept, tools, i, seen);
        seen := seen + {rawToolIdentity};
      }
    }
    assert kept + [] == kept;
  }

  /** The identities recorded so far under one key. */
  ghost function IdentitiesUnder<K(!new)>(pairs: set<(K, string)>, key: K): set<string> {
    set p | p in pairs && p.0 == key :: p.1
  }

  lemma CollidingIffTwo<K(!new)>(pairs: set<(K, string)>, key: K)
    ensures key in Colliding(pairs) <==> |IdentitiesUnder(pairs, key)| > 1
  {
    var ids := IdentitiesUnder(pairs, key);
    if key in Colliding(pairs) {
      var p, q :| p in pairs && q in pairs && p.0 == q.0 && p.1 != q.1 && p.0 == key;
      assert {p.1, q.1} <= ids;
      SubsetSize({p.1, q.1}, ids);
    }
    if |ids| > 1 {
      var x :| x in ids;
      assert |ids - {x}| > 0;
      var y :| y in ids - {x};
      assert (key, x) in pairs && (key, y) in pairs;
    }
  }

  /** Groups identities by key and keeps the keys that have more than one. */
  method CollidingKeys<K(==, !new)>(pairs: seq<(K, string)>) returns (r: set<K>)
    ensures r == Colliding(Elements(pairs))
  {
    var groups: map<K, set<string>> := map[];
    for i := 0 to |pairs|
      invariant groups.Keys == set p | p in pairs[..i] :: p.0
      invariant forall k :: k in groups ==> groups[k] == IdentitiesUnder(Elements(pairs[..i]), k)
    {
      var (key, id) := pairs[i];
      assert pairs[..i + 1] == pairs[..i] + [pairs[i]];
      groups := groups[key := (if key in groups then groups[key] else {}) + {id}];
    }
    assert pairs[..|pairs|] == pairs;
    r := set k | k in groups && |groups[k]| > 1;
    forall k ensures k in r <==> k in Colliding(Elements(pairs)) {
      CollidingIffTwo(Elements(pairs), k);
    }
  }

  /** `for candidate in &mut candidates`: rewrite every candidate in place. */
  method RewriteAll(rewrite: Candidate -> Candidate, candidates: seq<Candidate>) returns (r: seq<Candidate>)
    ensures r == Apply(rewrite, candidates)
  {
    r := candidates;
    for i := 0 to |candidates|
      invariant |r| == |candidates|
      invariant forall k :: 0 <= k < i ==> r[k] == rewrite(candidates[k])
      invariant forall k :: i <= k < |r| ==> r[k] == candidates[k]
    {
      r := r[i := rewrite(r[i])];
    }
  }

  /** Second pass: hash every namespace that two raw namespaces were sanitised to. */
  method RenameNamespaces(sha1: Digest, candidates: seq<Candidate>) returns (r: seq<Candidate>)
    ensures r == NamespacesRenamed(sha1, candidates)
    ensures forall i :: 0 <= i < |candidates| ==>
      r[i] == candidates[i].(callableNamespace :=
        if Clashes(candidates, NamespacePair, i)
        then HashedNamespace(sha1, candidates[i].callableNamespace, candidates[i].rawNamespaceIdentity)
        else candidates[i].callableNamespace)
  {
    var colliding := CollidingKeys(Apply(NamespacePair, candidates));
    r := RewriteAll((c: Candidate) => RenameNamespace(sha1, colliding, c), candidates);
    forall i | 0 <= i < |candidates| { NamespaceRenamed(sha1, candidates, i); }
  }

  /** Third pass: hash every name that two raw tools were sanitised to within one namespace. */
  method RenameTools(sha1: Digest, candidates: seq<Candidate>) returns (r: seq<Candidate>)
    ensures r == ToolsRenamed(sha1, candidates)
    ensures forall i :: 0 <= i < |candidates| ==>
      r[i] == candidates[i].(callableName :=
        if Clashes(candidates, ToolPair, i)
        then candidates[i].callableName + Hash12(sha1, candidates[i].rawToolIdentity)
        else candidates[i].callableName)
  {
    var colliding := CollidingKeys(Apply(ToolPair, candidates));
    r := RewriteAll((c: Candidate) => RenameTool(sha1, colliding, c), candidates);
    forall i | 0 <= i < |candidates| { ToolRenamed(sha1, candidates, i); }
  }

  /** Last pass: allocate names in sorted order. */
  method AllocateNames(sha1: Digest, candidates: seq<Candidate>) returns (r: Option<map<string, ToolInfo>>)
    ensures r == AllocateAll(HashAllocator(sha1), candidates, {}, map[])
  {
    var used: set<string> := {};
    var qualified: map<string, ToolInfo> := map[];
    ghost var goal := AllocateAll(HashAllocator(sha1), candidates, {}, map[]);
    for i := 0 to |candidates|
      invariant goal == AllocateAll(HashAllocator(sha1), candidates[i..], used, qualified)
    {
      var c := candidates[i];
      var parts, used' := UniqueCallableParts(sha1, c.callableNamespace, c.callableName, c.rawToolIdentity, used);
      assert candidates[i..][1..] == candidates[i + 1..];
      if parts.None? {
        return None;
      }
      used := used';
      qualified := qualified[parts.value.Qualified() := WithParts(c.tool, parts.value)];
    }
    return Some(qualified);
  }

  /** `qualify_tools`: a `None` result stands for a call that never returns. */
  method QualifyTools(sha1: Digest, tools: seq<ToolInfo>) returns (r: Option<map<string, ToolInfo>>)
    ensures r == Qualify(sha1, tools)
  {
    var candidates := CollectCandidates(tools);
    candidates := RenameNamespaces(sha1, candidates);
    candidates := RenameTools(sha1, candidates);
    r := AllocateNames(sha1, Sort(candidates, Identity));
  }
}
