/** Which namespace and name each tool gets, told without the passes: what is hashed, how, and what is left alone. */
module QualificationNames {
  import opened Common
  import opened Ordering
  import opened ToolNames
  import opened Qualification

  // ---- The two texts of a tool, from the kept tools alone ----

  /** An underscore and the first twelve digits of the digest. */
  ghost function Hash12(sha1: Digest, raw: string): string { "_" + sha1(raw)[..12] }

  /** The hash goes to the end, or before a trailing double underscore. */
  ghost function HashedNamespace(sha1: Digest, namespace: string, raw: string): string {
    var n := |namespace|;
    if n >= 2 && namespace[n - 1] == '_' && namespace[n - 2] == '_'
    then namespace[..n - 2] + Hash12(sha1, raw) + "__"
    else namespace + Hash12(sha1, raw)
  }

  /** Two different raw namespaces have the same sanitised one. */
  ghost predicate NamespacesClash(u: ToolInfo, t: ToolInfo) {
    && Sanitize(u.callableNamespace) == Sanitize(t.callableNamespace)
    && RawNamespaceIdentity(u) != RawNamespaceIdentity(t)
  }

  ghost predicate NamespaceShared(kept: seq<ToolInfo>, t: ToolInfo) {
    exists j :: 0 <= j < |kept| && NamespacesClash(kept[j], t)
  }

  ghost function NamespaceText(sha1: Digest, kept: seq<ToolInfo>, t: ToolInfo): string {
    var plain := Sanitize(t.callableNamespace);
    if NamespaceShared(kept, t) then HashedNamespace(sha1, plain, RawNamespaceIdentity(t)) else plain
  }

  /** Two different raw tools have the same namespace by now and the same sanitised name. */
  ghost predicate NamesClash(sha1: Digest, kept: seq<ToolInfo>, u: ToolInfo, t: ToolInfo) {
    && NamespaceText(sha1, kept, u) == NamespaceText(sha1, kept, t)
    && Sanitize(u.callableName) == Sanitize(t.callableName)
    && RawToolIdentity(u) != RawToolIdentity(t)
  }

  ghost predicate NameShared(sha1: Digest, kept: seq<ToolInfo>, t: ToolInfo) {
    exists j :: 0 <= j < |kept| && NamesClash(sha1, kept, kept[j], t)
  }

  ghost function NameText(sha1: Digest, kept: seq<ToolInfo>, t: ToolInfo): string {
    var plain := Sanitize(t.callableName);
    if NameShared(sha1, kept, t) then plain + Hash12(sha1, RawToolIdentity(t)) else plain
  }

  // ---- The passes compute them ----

  lemma DelimiterEnds(s: string)
    ensures EndsWithDelimiter(s) <==> |s| >= 2 && s[|s| - 1] == '_' && s[|s| - 2] == '_'
  {
    assert |s| >= 2 ==> s[|s| - 2..] == [s[|s| - 2], s[|s| - 1]];
  }

  lemma AppendNamespaceHashIs(sha1: Digest, namespace: string, raw: string)
    ensures AppendNamespaceHash(sha1, namespace, raw) == HashedNamespace(sha1, namespace, raw)
  {
    DelimiterEnds(namespace);
  }

  /** The keys of two pairs meet while their identities differ. */
  ghost predicate PairsClash<K>(p: (K, string), q: (K, string)) { p.0 == q.0 && p.1 != q.1 }

  lemma CollidingFrom<K(!new)>(pairs: set<(K, string)>, own: (K, string)) returns (other: (K, string))
    requires own in pairs && own.0 in Colliding(pairs)
    ensures other in pairs && PairsClash(other, own)
  {
    var p, q :| p in pairs && q in pairs && p.0 == q.0 && p.1 != q.1 && p.0 == own.0;
    other := if p.1 != own.1 then p else q;
  }

  lemma ClashCollides<K(!new)>(pairs: set<(K, string)>, own: (K, string), other: (K, string))
    requires own in pairs && other in pairs && PairsClash(other, own)
    ensures own.0 in Colliding(pairs)
  {
  }

  /** A key collides exactly when another element has it with a different identity. */
  lemma CollidesIff<T(!new), K(!new)>(s: seq<T>, pair: T -> (K, string), i: nat)
    requires i < |s|
    ensures pair(s[i]).0 in Colliding(Elements(Apply(pair, s))) <==>
            exists j :: 0 <= j < |s| && PairsClash(pair(s[j]), pair(s[i]))
  {
    var ps := Apply(pair, s);
    assert ps[i] in Elements(ps);
    if j :| 0 <= j < |s| && PairsClash(pair(s[j]), pair(s[i])) {
      assert ps[j] in Elements(ps);
      ClashCollides(Elements(ps), ps[i], ps[j]);
    }
    if ps[i].0 in Colliding(Elements(ps)) {
      var other := CollidingFrom(Elements(ps), ps[i]);
      var j :| 0 <= j < |ps| && ps[j] == other;
      assert PairsClash(pair(s[j]), pair(s[i]));
    }
  }

  /** Another candidate has the same key and a different identity. */
  ghost predicate Clashes<K(!new)>(cs: seq<Candidate>, pair: Candidate -> (K, string), i: nat)
    requires i < |cs|
  {
    exists j :: 0 <= j < |cs| && PairsClash(pair(cs[j]), pair(cs[i]))
  }

  /** The second pass: exactly the clashing namespaces are hashed, each with its own raw identity. */
  lemma NamespaceRenamed(sha1: Digest, cs: seq<Candidate>, i: nat)
    requires i < |cs|
    ensures NamespacesRenamed(sha1, cs)[i] == cs[i].(callableNamespace :=
      if Clashes(cs, NamespacePair, i)
      then HashedNamespace(sha1, cs[i].callableNamespace, cs[i].rawNamespaceIdentity)
      else cs[i].callableNamespace)
  {
    CollidesIff(cs, NamespacePair, i);
    AppendNamespaceHashIs(sha1, cs[i].callableNamespace, cs[i].rawNamespaceIdentity);
  }

  /** The third pass: exactly the names that clash within a namespace are hashed, each with its own raw identity. */
  lemma ToolRenamed(sha1: Digest, cs: seq<Candidate>, i: nat)
    requires i < |cs|
    ensures ToolsRenamed(sha1, cs)[i] == cs[i].(callableName :=
      if Clashes(cs, ToolPair, i) then cs[i].callableName + Hash12(sha1, cs[i].rawToolIdentity)
      else cs[i].callableName)
  {
    CollidesIff(cs, ToolPair, i);
  }

  /** The candidates of the kept tools before any renaming. */
  ghost function Fresh(kept: seq<ToolInfo>): seq<Candidate> { Apply(MakeCandidate, kept) }

  lemma NamespaceClashesIff(kept: seq<ToolInfo>, i: nat)
    requires i < |kept|
    ensures Clashes(Fresh(kept), NamespacePair, i) <==> NamespaceShared(kept, kept[i])
  {
    var cs := Fresh(kept);
    assert forall j :: 0 <= j < |cs| ==>
      (PairsClash(NamespacePair(cs[j]), NamespacePair(cs[i])) <==> NamespacesClash(kept[j], kept[i]));
  }

  lemma NamespacesRenamedIs(sha1: Digest, kept: seq<ToolInfo>, i: nat)
    requires i < |kept|
    ensures NamespacesRenamed(sha1, Fresh(kept))[i] ==
            Fresh(kept)[i].(callableNamespace := NamespaceText(sha1, kept, kept[i]))
  {
    NamespaceClashesIff(kept, i);
    NamespaceRenamed(sha1, Fresh(kept), i);
  }

  /** Two candidates clash in the third pass exactly when their tools do. */
  lemma NamesMeet(sha1: Digest, kept: seq<ToolInfo>, i: nat, j: nat)
    requires i < |kept| && j < |kept|
    ensures var cs := NamespacesRenamed(sha1, Fresh(kept));
      PairsClash(ToolPair(cs[j]), ToolPair(cs[i])) <==> NamesClash(sha1, kept, kept[j], kept[i])
  {
    NamespacesRenamedIs(sha1, kept, i);
    NamespacesRenamedIs(sha1, kept, j);
  }

  lemma ClashesAs(sha1: Digest, kept: seq<ToolInfo>, cs: seq<Candidate>, i: nat)
    requires i < |kept| == |cs|
    requires forall j :: 0 <= j < |cs| ==>
      (PairsClash(ToolPair(cs[j]), ToolPair(cs[i])) <==> NamesClash(sha1, kept, kept[j], kept[i]))
    ensures Clashes(cs, ToolPair, i) <==> NameShared(sha1, kept, kept[i])
  {
  }

  lemma NameClashesIff(sha1: Digest, kept: seq<ToolInfo>, i: nat)
    requires i < |kept|
    ensures Clashes(NamespacesRenamed(sha1, Fresh(kept)), ToolPair, i) <==> NameShared(sha1, kept, kept[i])
  {
    var cs := NamespacesRenamed(sha1, Fresh(kept));
    forall j | 0 <= j < |cs|
      ensures PairsClash(ToolPair(cs[j]), ToolPair(cs[i])) <==> NamesClash(sha1, kept, kept[j], kept[i])
    {
      NamesMeet(sha1, kept, i, j);
    }
    ClashesAs(sha1, kept, cs, i);
  }

  /**
    After both passes every kept tool has the namespace and the name that the kept tools alone call for: sanitised, and
    hashed with its own raw identity exactly where two different raw identities would otherwise meet.
   */
  lemma PreparedTexts(sha1: Digest, tools: seq<ToolInfo>, i: nat)
    requires i < |Kept(tools)|
    ensures |Prepared(sha1, tools)| == |Kept(tools)|
    ensures var kept, c := Kept(tools), Prepared(sha1, tools)[i];
      c == Candidate(kept[i], RawNamespaceIdentity(kept[i]), RawToolIdentity(kept[i]),
                     NamespaceText(sha1, kept, kept[i]), NameText(sha1, kept, kept[i]))
  {
    var kept := Kept(tools);
    NamespacesRenamedIs(sha1, kept, i);
    NameClashesIff(sha1, kept, i);
    ToolRenamed(sha1, NamespacesRenamed(sha1, Fresh(kept)), i);
  }

  /** Tools whose raw namespaces differ but sanitise alike get different namespaces exactly when their hashes differ. */
  lemma TwinsSeparate(sha1: Digest, kept: seq<ToolInfo>, i: nat, j: nat)
    requires i < |kept| && j < |kept| && NamespacesClash(kept[i], kept[j])
    ensures NamespaceText(sha1, kept, kept[i]) != NamespaceText(sha1, kept, kept[j]) <==>
            sha1(RawNamespaceIdentity(kept[i]))[..12] != sha1(RawNamespaceIdentity(kept[j]))[..12]
  {
    var t, u := kept[i], kept[j];
    var plain := Sanitize(t.callableNamespace);
    assert NamespacesClash(u, t);
    AppendNamespaceHashIs(sha1, plain, RawNamespaceIdentity(t));
    AppendNamespaceHashIs(sha1, plain, RawNamespaceIdentity(u));
    NamespaceHashSeparates(sha1, plain, RawNamespaceIdentity(t), RawNamespaceIdentity(u));
    assert Hash12(sha1, RawNamespaceIdentity(t))[1..] == sha1(RawNamespaceIdentity(t))[..12];
    assert Hash12(sha1, RawNamespaceIdentity(u))[1..] == sha1(RawNamespaceIdentity(u))[..12];
  }

  /** An underscore and twelve lower-case hexadecimal digits at the end. */
  ghost predicate HashEnds(b: string) {
    && |b| >= 13 && b[|b| - 13] == '_'
    && forall i :: |b| - 12 <= i < |b| ==> '0' <= b[i] <= '9' || 'a' <= b[i] <= 'f'
  }

  /** The same, before a final double underscore if there is one. */
  ghost predicate LooksHashed(namespace: string) {
    HashEnds(if EndsWithDelimiter(namespace) then namespace[..|namespace| - 2] else namespace)
  }

  lemma LastDigit(sha1: Digest, base: string, raw: string)
    ensures var b := base + Hash12(sha1, raw); |b| == |base| + 13 && b[|b| - 1] != '_'
  {
    var b := base + Hash12(sha1, raw);
    assert b[|b| - 1] == sha1(raw)[11];
  }

  /** A hashed namespace ends in the delimiter exactly when the plain one does. */
  lemma HashedEnd(sha1: Digest, namespace: string, raw: string)
    ensures var h := HashedNamespace(sha1, namespace, raw);
      && (EndsWithDelimiter(h) <==> EndsWithDelimiter(namespace)) && |h| == |namespace| + 13
  {
    var h := HashedNamespace(sha1, namespace, raw);
    DelimiterEnds(h);
    DelimiterEnds(namespace);
    if !EndsWithDelimiter(namespace) {
      LastDigit(sha1, namespace, raw);
    }
  }

  lemma HashedLooksHashed(sha1: Digest, namespace: string, raw: string)
    ensures LooksHashed(HashedNamespace(sha1, namespace, raw))
  {
    HashedEnd(sha1, namespace, raw);
    DelimiterEnds(namespace);
    var h, n := HashedNamespace(sha1, namespace, raw), |namespace|;
    if EndsWithDelimiter(namespace) {
      assert h[..|h| - 2] == namespace[..n - 2] + Hash12(sha1, raw);
      EndsHashed(sha1, namespace[..n - 2], raw);
    } else {
      EndsHashed(sha1, namespace, raw);
    }
  }

  lemma EndsHashed(sha1: Digest, base: string, raw: string)
    ensures HashEnds(base + Hash12(sha1, raw))
  {
    var b, digits := base + Hash12(sha1, raw), sha1(raw);
    assert b[|b| - 13..] == Hash12(sha1, raw);
    forall i | |b| - 12 <= i < |b| ensures '0' <= b[i] <= '9' || 'a' <= b[i] <= 'f' {
      assert b[i] == digits[i - (|b| - 12)];
    }
  }

  /** Two hashed namespaces are the same text only if the plain ones are. */
  lemma HashedDetermines(sha1: Digest, n1: string, raw1: string, n2: string, raw2: string)
    requires HashedNamespace(sha1, n1, raw1) == HashedNamespace(sha1, n2, raw2)
    ensures n1 == n2
  {
    HashedEnd(sha1, n1, raw1);
    HashedEnd(sha1, n2, raw2);
    AppendNamespaceHashIs(sha1, n1, raw1);
    AppendNamespaceHashIs(sha1, n2, raw2);
    var h := HashedNamespace(sha1, n1, raw1);
    if EndsWithDelimiter(n1) {
      assert n1[..|n1| - 2] == h[..|n1| - 2] == n2[..|n2| - 2];
      assert n1 == n1[..|n1| - 2] + "__" && n2 == n2[..|n2| - 2] + "__";
    } else {
      assert n1 == h[..|n1|] == n2;
    }
  }

  /**
    If no raw namespace looks hashed to begin with, two tools of different raw namespaces get the same one exactly
    when the two sanitise alike and their hashes are the same.
   */
  lemma NamespacesSeparate(sha1: Digest, kept: seq<ToolInfo>, i: nat, j: nat)
    requires i < |kept| && j < |kept| && RawNamespaceIdentity(kept[i]) != RawNamespaceIdentity(kept[j])
    requires !LooksHashed(Sanitize(kept[i].callableNamespace)) && !LooksHashed(Sanitize(kept[j].callableNamespace))
    ensures NamespaceText(sha1, kept, kept[i]) == NamespaceText(sha1, kept, kept[j]) <==>
            && Sanitize(kept[i].callableNamespace) == Sanitize(kept[j].callableNamespace)
            && sha1(RawNamespaceIdentity(kept[i]))[..12] == sha1(RawNamespaceIdentity(kept[j]))[..12]
  {
    var t, u := kept[i], kept[j];
    var p, q := Sanitize(t.callableNamespace), Sanitize(u.callableNamespace);
    if p == q {
      TwinsSeparate(sha1, kept, i, j);
    } else if NamespaceText(sha1, kept, t) == NamespaceText(sha1, kept, u) {
      HashedLooksHashed(sha1, p, RawNamespaceIdentity(t));
      HashedLooksHashed(sha1, q, RawNamespaceIdentity(u));
      HashedDetermines(sha1, p, RawNamespaceIdentity(t), q, RawNamespaceIdentity(u));
    }
  }

  /** A namespace that looks hashed can meet a hashed one: for every digest three tools show it. */
  lemma LiteralMeetsHashed(sha1: Digest) returns (kept: seq<ToolInfo>)
    ensures |kept| == 3 && RawNamespaceIdentity(kept[0]) != RawNamespaceIdentity(kept[2])
    ensures NamespaceText(sha1, kept, kept[0]) == NamespaceText(sha1, kept, kept[2])
    ensures Sanitize(kept[0].callableNamespace) != Sanitize(kept[2].callableNamespace)
  {
    var a := ToolInfo("a", "t", "n", None, Tool("t", None, ""), None, None, [], None);
    var b := a.(serverName := "b");
    var c := a.(callableNamespace := "n" + Hash12(sha1, RawNamespaceIdentity(a)));
    kept := [a, b, c];
    assert RawNamespaceIdentity(b)[0] == 'b';
    LiteralMeets(sha1, a, b, c);
  }

  lemma LiteralMeets(sha1: Digest, a: ToolInfo, b: ToolInfo, c: ToolInfo)
    requires NamespacesClash(b, a) && Clean(a.callableNamespace) && a.callableNamespace != []
    requires c.callableNamespace == HashedNamespace(sha1, a.callableNamespace, RawNamespaceIdentity(a))
    ensures NamespaceText(sha1, [a, b, c], a) == NamespaceText(sha1, [a, b, c], c)
    ensures Sanitize(c.callableNamespace) == c.callableNamespace != Sanitize(a.callableNamespace)
  {
    HashedIsClean(sha1, a.callableNamespace, RawNamespaceIdentity(a));
    SharedOrNot([a, b, c]);
  }

  lemma HashedIsClean(sha1: Digest, namespace: string, raw: string)
    requires Clean(namespace) && namespace != []
    ensures var h := HashedNamespace(sha1, namespace, raw); Sanitize(h) == h != namespace == Sanitize(namespace)
  {
    AppendNamespaceHashIs(sha1, namespace, raw);
    HashedEnd(sha1, namespace, raw);
  }

  lemma SharedOrNot(kept: seq<ToolInfo>)
    requires |kept| == 3 && NamespacesClash(kept[1], kept[0])
    requires Sanitize(kept[2].callableNamespace) != Sanitize(kept[0].callableNamespace)
    ensures NamespaceShared(kept, kept[0]) && !NamespaceShared(kept, kept[2])
  {
    assert !NamespacesClash(kept[0], kept[2]) && !NamespacesClash(kept[1], kept[2]);
  }

  // ---- The last pass ----

  /** What a tool with these texts is given when some names are used. */
  ghost predicate Allotted(
    sha1: Digest, namespace: string, name: string, raw: string, used: set<string>, p: Parts)
  {
    if |namespace + name| <= 64 && namespace + name !in used then p == Parts(namespace, name)
    else exists a :: 0 <= a <= U32_MAX && AllottedAt(sha1, namespace, name, raw, used, a, p)
  }

  /** The text of attempt `a`: the readable one cut to 51 characters, then the hash of the attempt. */
  ghost function AttemptText(sha1: Digest, text: string, raw: string, a: nat): string {
    UpTo(text, 51) + "_" + sha1(HashInput(raw, a))[..12]
  }

  ghost predicate AllottedAt(
    sha1: Digest, namespace: string, name: string, raw: string, used: set<string>, a: nat, p: Parts)
  {
    && p.Qualified() !in used && p.Qualified() == AttemptText(sha1, namespace + name, raw, a)
    && p.namespace == UpTo(namespace, 51)
    && forall b: nat :: b < a ==> AttemptText(sha1, namespace + name, raw, b) in used
  }

  lemma AttemptTextIs(sha1: Digest, namespace: string, name: string, raw: string, a: nat)
    requires Clean(namespace) && Clean(name)
    ensures AttemptNames(sha1, namespace, name, raw)(a) == AttemptText(sha1, namespace + name, raw, a)
    ensures Attempt(sha1, namespace, name, raw, a).namespace == UpTo(namespace, 51)
  {
    FitText(sha1, namespace, name, HashInput(raw, a));
  }

  lemma UniqueIsAllotted(sha1: Digest, namespace: string, name: string, raw: string, used: set<string>)
    requires Clean(namespace) && Clean(name)
    ensures var r := Unique(sha1, namespace, name, raw, used);
      r.Some? ==> Allotted(sha1, namespace, name, raw, used, r.value)
  {
    var r := Unique(sha1, namespace, name, raw, used);
    assert Clean(namespace + name);
    if r.Some? && !PlainIsFree(namespace, name, used) {
      var names := AttemptNames(sha1, namespace, name, raw);
      FirstFreeIsFirst(names, used, 0);
      var a := FirstFree(names, used, 0).value;
      forall b: nat | b <= a ensures names(b) == AttemptText(sha1, namespace + name, raw, b) {
        AttemptTextIs(sha1, namespace, name, raw, b);
      }
      AttemptTextIs(sha1, namespace, name, raw, a);
      assert AllottedAt(sha1, namespace, name, raw, used, a, r.value);
    }
  }

  /** The parts that the candidates are given one after the other, as far as allocation returns. */
  ghost function GivenParts(alloc: Allocator, cs: seq<Candidate>, used: set<string>): seq<Parts> {
    if cs == [] then []
    else
      match alloc(cs[0], used)
      case None => []
      case Some(p) => [p] + GivenParts(alloc, cs[1..], used + {p.Qualified()})
  }

  ghost function NamesGiven(parts: seq<Parts>): set<string> { set p | p in parts :: p.Qualified() }

  /** Each candidate is given its parts while exactly the names given before it are used. */
  lemma {:induction false} GivenInTurn(alloc: Allocator, cs: seq<Candidate>, used: set<string>, k: nat)
    requires k < |GivenParts(alloc, cs, used)|
    ensures k < |cs|
    ensures var parts := GivenParts(alloc, cs, used); alloc(cs[k], used + NamesGiven(parts[..k])) == Some(parts[k])
  {
    var parts := GivenParts(alloc, cs, used);
    if k == 0 {
      assert used + NamesGiven(parts[..0]) == used;
    } else {
      var used' := used + {parts[0].Qualified()};
      GivenInTurn(alloc, cs[1..], used', k - 1);
      var rest := GivenParts(alloc, cs[1..], used');
      assert parts[..k] == [parts[0]] + rest[..k - 1];
      assert used + NamesGiven(parts[..k]) == used' + NamesGiven(rest[..k - 1]);
    }
  }

  /** The entry of the `k`-th candidate is its tool under the name of its parts, with those parts. */
  ghost predicate EntryAt(m: map<string, ToolInfo>, t: ToolInfo, p: Parts) {
    && p.Qualified() in m && OnlyPartsDiffer(m[p.Qualified()], t)
    && m[p.Qualified()].callableNamespace == p.namespace && m[p.Qualified()].callableName == p.name
  }

  /** Allocating keeps what is there. */
  lemma {:induction false} AllocateAllKeeps(
    alloc: Allocator, cs: seq<Candidate>, used: set<string>, acc: map<string, ToolInfo>, name: string)
    requires GivesFreshNames(alloc) && acc.Keys <= used && forall i :: 0 <= i < |cs| ==> CleanCandidate(cs[i])
    requires name in acc && AllocateAll(alloc, cs, used, acc).Some?
    ensures var m := AllocateAll(alloc, cs, used, acc).value; name in m && m[name] == acc[name]
  {
    if cs == [] {
    } else {
      var p := alloc(cs[0], used).value;
      AllocateAllKeeps(alloc, cs[1..], used + {p.Qualified()}, acc[p.Qualified() := WithParts(cs[0].tool, p)], name);
    }
  }

  lemma {:induction false} AllocateAllKeys(
    alloc: Allocator, cs: seq<Candidate>, used: set<string>, acc: map<string, ToolInfo>)
    requires AllocateAll(alloc, cs, used, acc).Some?
    ensures |GivenParts(alloc, cs, used)| == |cs|
    ensures AllocateAll(alloc, cs, used, acc).value.Keys == acc.Keys + NamesGiven(GivenParts(alloc, cs, used))
  {
    if cs == [] {
    } else {
      var p := alloc(cs[0], used).value;
      var used' := used + {p.Qualified()};
      AllocateAllKeys(alloc, cs[1..], used', acc[p.Qualified() := WithParts(cs[0].tool, p)]);
      var rest := GivenParts(alloc, cs[1..], used');
      assert NamesGiven([p] + rest) == {p.Qualified()} + NamesGiven(rest);
    }
  }

  lemma {:induction false} AllocateAllEntry(
    alloc: Allocator, cs: seq<Candidate>, used: set<string>, acc: map<string, ToolInfo>, k: nat)
    requires GivesFreshNames(alloc) && acc.Keys <= used && forall i :: 0 <= i < |cs| ==> CleanCandidate(cs[i])
    requires AllocateAll(alloc, cs, used, acc).Some? && k < |cs| == |GivenParts(alloc, cs, used)|
    ensures EntryAt(AllocateAll(alloc, cs, used, acc).value, cs[k].tool, GivenParts(alloc, cs, used)[k])
  {
    var p := alloc(cs[0], used).value;
    var used', acc' := used + {p.Qualified()}, acc[p.Qualified() := WithParts(cs[0].tool, p)];
    if k == 0 {
      AllocateAllKeeps(alloc, cs[1..], used', acc', p.Qualified());
    } else {
      AllocateAllEntry(alloc, cs[1..], used', acc', k - 1);
    }
  }

  /** Everything about one entry: its tool's texts, the names used before it, and what it is given. */
  ghost predicate EntryExact(
    sha1: Digest, kept: seq<ToolInfo>, m: map<string, ToolInfo>, order: seq<ToolInfo>, parts: seq<Parts>, k: nat)
    requires k < |order| == |parts|
  {
    && EntryAt(m, order[k], parts[k])
    && Allotted(sha1, NamespaceText(sha1, kept, order[k]), NameText(sha1, kept, order[k]), RawToolIdentity(order[k]),
                NamesGiven(parts[..k]), parts[k])
  }

  /** The candidate of a tool with its two texts. */
  ghost predicate PreparedCandidate(sha1: Digest, kept: seq<ToolInfo>, c: Candidate) {
    && CleanCandidate(c) && c.rawToolIdentity == RawToolIdentity(c.tool)
    && c.callableNamespace == NamespaceText(sha1, kept, c.tool) && c.callableName == NameText(sha1, kept, c.tool)
  }

  lemma SortedFrom(ps: seq<Candidate>, k: nat) returns (i: nat)
    requires k < |Sort(ps, Identity)|
    ensures i < |ps| && ps[i] == Sort(ps, Identity)[k]
  {
    assert Sort(ps, Identity)[k] in multiset(ps);
    i :| 0 <= i < |ps| && ps[i] == Sort(ps, Identity)[k];
  }

  lemma SortedIsPrepared(sha1: Digest, tools: seq<ToolInfo>, k: nat)
    requires k < |Sort(Prepared(sha1, tools), Identity)|
    ensures PreparedCandidate(sha1, Kept(tools), Sort(Prepared(sha1, tools), Identity)[k])
  {
    var ps := Prepared(sha1, tools);
    var i := SortedFrom(ps, k);
    PreparedAligned(sha1, tools);
    PreparedTexts(sha1, tools, i);
  }

  lemma GivenIsExact(sha1: Digest, kept: seq<ToolInfo>, cs: seq<Candidate>, k: nat)
    requires k < |cs| && PreparedCandidate(sha1, kept, cs[k])
    requires k < |GivenParts(HashAllocator(sha1), cs, {})|
    ensures var parts, t := GivenParts(HashAllocator(sha1), cs, {}), cs[k].tool;
      Allotted(sha1, NamespaceText(sha1, kept, t), NameText(sha1, kept, t), RawToolIdentity(t),
               NamesGiven(parts[..k]), parts[k])
  {
    var parts := GivenParts(HashAllocator(sha1), cs, {});
    GivenInTurn(HashAllocator(sha1), cs, {}, k);
    assert {} + NamesGiven(parts[..k]) == NamesGiven(parts[..k]);
    var c := cs[k];
    UniqueIsAllotted(sha1, c.callableNamespace, c.callableName, c.rawToolIdentity, NamesGiven(parts[..k]));
  }

  lemma OrderIsSorted(cs: seq<Candidate>)
    requires StrictlySorted(cs, Identity)
    requires forall k :: 0 <= k < |cs| ==> Identity(cs[k]) == RawToolIdentity(ToolOf(cs[k]))
    ensures StrictlySorted(Apply(ToolOf, cs), RawToolIdentity)
  {
  }

  lemma ExactOnCandidates(sha1: Digest, kept: seq<ToolInfo>, cs: seq<Candidate>)
    requires forall k :: 0 <= k < |cs| ==> PreparedCandidate(sha1, kept, cs[k])
    ensures var r, parts := AllocateAll(HashAllocator(sha1), cs, {}, map[]), GivenParts(HashAllocator(sha1), cs, {});
      r.Some? ==>
        && |parts| == |cs| && r.value.Keys == NamesGiven(parts)
        && forall k :: 0 <= k < |cs| ==> EntryExact(sha1, kept, r.value, Apply(ToolOf, cs), parts, k)
  {
    HashAllocatorIsFresh(sha1);
    var r, parts := AllocateAll(HashAllocator(sha1), cs, {}, map[]), GivenParts(HashAllocator(sha1), cs, {});
    if r.Some? {
      AllocateAllKeys(HashAllocator(sha1), cs, {}, map[]);
      forall k | 0 <= k < |cs| ensures EntryExact(sha1, kept, r.value, Apply(ToolOf, cs), parts, k) {
        AllocateAllEntry(HashAllocator(sha1), cs, {}, map[], k);
        GivenIsExact(sha1, kept, cs, k);
      }
    }
  }

  /**
    The whole result: the kept tools in the order of their raw identities are each given their readable namespace and
    name if the two together have at most 64 characters and are not used yet, and otherwise the first free hashed
    text; the map has these entries and no others.
   */
  lemma QualifyExactly(sha1: Digest, tools: seq<ToolInfo>) returns (order: seq<ToolInfo>, parts: seq<Parts>)
    ensures StrictlySorted(order, RawToolIdentity) && multiset(order) == multiset(Kept(tools))
    ensures var r := Qualify(sha1, tools);
      r.Some? ==>
        && |parts| == |order| && r.value.Keys == NamesGiven(parts)
        && forall k :: 0 <= k < |order| ==> EntryExact(sha1, Kept(tools), r.value, order, parts, k)
  {
    var ps, kept := Prepared(sha1, tools), Kept(tools);
    PreparedAligned(sha1, tools);
    SortKeepsTools(ps, kept);
    SortSorts(ps, Identity);
    var cs := Sort(ps, Identity);
    forall k | 0 <= k < |cs| ensures PreparedCandidate(sha1, kept, cs[k]) {
      SortedIsPrepared(sha1, tools, k);
    }
    order, parts := Apply(ToolOf, cs), GivenParts(HashAllocator(sha1), cs, {});
    OrderIsSorted(cs);
    ExactOnCandidates(sha1, kept, cs);
  }

  /** In the result a namespace of at most 51 characters, or one whose readable name was given, is kept whole. */
  lemma ListedNamespace(
    sha1: Digest, kept: seq<ToolInfo>, m: map<string, ToolInfo>, order: seq<ToolInfo>, parts: seq<Parts>, k: nat)
    requires k < |order| == |parts| && EntryExact(sha1, kept, m, order, parts, k)
    ensures var text := NamespaceText(sha1, kept, order[k]);
      m[parts[k].Qualified()].callableNamespace == text || m[parts[k].Qualified()].callableNamespace == UpTo(text, 51)
    ensures var text := NamespaceText(sha1, kept, order[k]) + NameText(sha1, kept, order[k]);
      |text| <= 64 && text !in NamesGiven(parts[..k]) ==>
        && m[parts[k].Qualified()].callableNamespace == NamespaceText(sha1, kept, order[k])
        && m[parts[k].Qualified()].callableName == NameText(sha1, kept, order[k])
  {
  }
}
