/** What the NUL-joined identities of `qualify_tools` tell apart. */
module RawIdentities {
  import opened Common
  import Ordering
  import opened Qualification

  predicate NulFree(s: string) {
    forall i :: 0 <= i < |s| ==> s[i] != '\0'
  }

  predicate NulFreeTool(t: ToolInfo) {
    && NulFree(t.serverName) && NulFree(t.callableNamespace) && NulFree(Connector(t)) && NulFree(t.callableName)
    && NulFree(t.tool.name)
  }

  /** The five raw fields agree; an absent connector reads as an empty one. */
  predicate SameRawFields(t: ToolInfo, u: ToolInfo) {
    && t.serverName == u.serverName && t.callableNamespace == u.callableNamespace
    && Connector(t) == Connector(u) && t.callableName == u.callableName && t.tool.name == u.tool.name
  }

  lemma SplitAtNul(a: string, b: string, c: string, d: string)
    requires NulFree(a) && NulFree(c)
    requires a + "\0" + b == c + "\0" + d
    ensures a == c && b == d
  {
    var s, t := a + "\0" + b, c + "\0" + d;
    assert s[|a|] == '\0' && t[|c|] == '\0';
    assert a == s[..|a|] && c == t[..|c|];
    assert b == s[|a| + 1..] && d == t[|c| + 1..];
  }

  // ---- Identities of NUL-free tools ----

  function Joined(a: string, b: string, c: string, d: string, e: string): string {
    a + "\0" + (b + "\0" + (c + "\0" + (d + "\0" + e)))
  }

  lemma IdentityIsJoined(t: ToolInfo)
    ensures RawToolIdentity(t) == Joined(t.serverName, t.callableNamespace, Connector(t), t.callableName, t.tool.name)
    ensures Connector(t) == if t.connectorId.Some? then t.connectorId.value else ""
  {
  }

  lemma JoinedDetermines(t: ToolInfo, u: ToolInfo)
    requires NulFreeTool(t) && NulFreeTool(u) && RawToolIdentity(t) == RawToolIdentity(u)
    ensures SameRawFields(t, u)
  {
    IdentityIsJoined(t);
    IdentityIsJoined(u);
    var t3, u3 := t.callableName + "\0" + t.tool.name, u.callableName + "\0" + u.tool.name;
    var t2, u2 := Connector(t) + "\0" + t3, Connector(u) + "\0" + u3;
    var t1, u1 := t.callableNamespace + "\0" + t2, u.callableNamespace + "\0" + u2;
    SplitAtNul(t.serverName, t1, u.serverName, u1);
    SplitAtNul(t.callableNamespace, t2, u.callableNamespace, u2);
    SplitAtNul(Connector(t), t3, Connector(u), u3);
    SplitAtNul(t.callableName, t.tool.name, u.callableName, u.tool.name);
  }

  function Nuls(s: string): nat {
    if s == [] then 0 else Bit(s[0] == '\0') + Nuls(s[1..])
  }

  lemma {:induction false} NulsAdd(a: string, b: string)
    ensures Nuls(a + b) == Nuls(a) + Nuls(b)
  {
    if a == [] {
      assert a + b == b;
    } else {
      assert (a + b)[1..] == a[1..] + b;
      NulsAdd(a[1..], b);
    }
  }

  lemma {:induction false} NulFreeIffNoNuls(s: string)
    ensures NulFree(s) <==> Nuls(s) == 0
  {
    if s == [] {
    } else {
      NulFreeIffNoNuls(s[1..]);
      assert s == [s[0]] + s[1..];
    }
  }

  lemma NulsOfJoin(a: string, rest: string)
    ensures Nuls(a + "\0" + rest) == Nuls(a) + 1 + Nuls(rest)
  {
    NulsAdd(a + "\0", rest);
    NulsAdd(a, "\0");
    assert "\0"[1..] == "";
  }

  /** An identity has the four separators and whatever NULs its fields bring. */
  lemma NulsOfIdentity(t: ToolInfo)
    ensures Nuls(RawToolIdentity(t)) ==
            4 + Nuls(t.serverName) + Nuls(t.callableNamespace) + Nuls(Connector(t)) + Nuls(t.callableName)
            + Nuls(t.tool.name)
  {
    IdentityIsJoined(t);
    var t3 := t.callableName + "\0" + t.tool.name;
    var t2 := Connector(t) + "\0" + t3;
    var t1 := t.callableNamespace + "\0" + t2;
    NulsOfJoin(t.serverName, t1);
    NulsOfJoin(t.callableNamespace, t2);
    NulsOfJoin(Connector(t), t3);
    NulsOfJoin(t.callableName, t.tool.name);
  }

  /** Whether a tool is NUL-free can be read off its identity. */
  lemma NulFreeByIdentity(t: ToolInfo)
    ensures NulFreeTool(t) <==> Nuls(RawToolIdentity(t)) == 4
  {
    NulsOfIdentity(t);
    NulFreeIffNoNuls(t.serverName);
    NulFreeIffNoNuls(t.callableNamespace);
    NulFreeIffNoNuls(Connector(t));
    NulFreeIffNoNuls(t.callableName);
    NulFreeIffNoNuls(t.tool.name);
  }

  // ---- Identities of the others ----

  lemma {:induction false} CutAtNul(s: string) returns (a: string, b: string)
    requires !NulFree(s)
    ensures s == a + "\0" + b && a != s
  {
    var i :| 0 <= i < |s| && s[i] == '\0';
    a, b := s[..i], s[i + 1..];
  }

  function RawTool(server: string, namespace: string, connector: string, name: string, tool: string): ToolInfo {
    ToolInfo(server, name, namespace, None, Tool(tool, None, ""), Some(connector), None, [], None)
  }

  lemma Regroup(a: string, b: string, rest: string)
    ensures a + "\0" + b + "\0" + rest == a + "\0" + (b + "\0" + rest)
  {
  }

  /**
    A field with a NUL can be cut there and its halves passed on to the fields after it, or the last one's to the
    field before.
   */
  lemma NulConfuses(t: ToolInfo) returns (u: ToolInfo)
    requires !NulFreeTool(t)
    ensures RawToolIdentity(u) == RawToolIdentity(t) && !SameRawFields(u, t)
  {
    var server, namespace, connector := t.serverName, t.callableNamespace, Connector(t);
    var name, tool := t.callableName, t.tool.name;
    var last := name + "\0" + tool;
    if !NulFree(server) {
      var a, b := CutAtNul(server);
      Regroup(a, b, namespace + "\0" + (connector + "\0" + last));
      u := Confused(t, a, b, namespace, connector, last);
    } else if !NulFree(namespace) {
      var a, b := CutAtNul(namespace);
      Regroup(a, b, connector + "\0" + last);
      u := Confused(t, server, a, b, connector, last);
    } else if !NulFree(connector) {
      var a, b := CutAtNul(connector);
      Regroup(a, b, last);
      u := Confused(t, server, namespace, a, b, last);
    } else if !NulFree(name) {
      var a, b := CutAtNul(name);
      Regroup(a, b, tool);
      u := Confused(t, server, namespace, connector, a, b + "\0" + tool);
    } else {
      var a, b := CutAtNul(tool);
      Regroup(name, a, b);
      u := Confused(t, server, namespace, connector, name + "\0" + a, b);
    }
  }

  lemma Confused(t: ToolInfo, server: string, namespace: string, connector: string, name: string, tool: string)
    returns (u: ToolInfo)
    requires Joined(server, namespace, connector, name, tool) ==
             Joined(t.serverName, t.callableNamespace, Connector(t), t.callableName, t.tool.name)
    requires
      || t.serverName != server || t.callableNamespace != namespace
      || Connector(t) != connector || t.callableName != name
    ensures RawToolIdentity(u) == RawToolIdentity(t) && !SameRawFields(u, t)
  {
    u := RawTool(server, namespace, connector, name, tool);
    IdentityIsJoined(t);
    IdentityIsJoined(u);
  }

  /**
    A tool's identity is its own, apart from fields that are not part of it, exactly when none of its raw fields has a
    NUL.
   */
  lemma IdentityDeterminesTool(t: ToolInfo)
    ensures (forall u :: RawToolIdentity(u) == RawToolIdentity(t) ==> SameRawFields(u, t)) <==> NulFreeTool(t)
  {
    if NulFreeTool(t) {
      forall u | RawToolIdentity(u) == RawToolIdentity(t) ensures SameRawFields(u, t) {
        NulFreeByIdentity(t);
        NulFreeByIdentity(u);
        JoinedDetermines(u, t);
      }
    } else {
      var u := NulConfuses(t);
    }
  }

  /** For instance these tools of two servers, one of which is dropped when both are listed. */
  lemma NulConfusesIdentities() returns (t: ToolInfo, u: ToolInfo)
    ensures t.serverName != u.serverName && RawToolIdentity(t) == RawToolIdentity(u)
    ensures Kept([t, u]) == [t]
  {
    t, u := RawTool("a\0b", "c", "", "d", "e"), RawTool("a", "b\0c", "", "d", "e");
    assert RawToolIdentity(t) == "a\0b\0c\0\0d\0e";
    assert RawToolIdentity(u) == "a\0b\0c\0\0d\0e";
    DuplicateDropped(t, u);
  }

  lemma DuplicateDropped(t: ToolInfo, u: ToolInfo)
    requires RawToolIdentity(t) == RawToolIdentity(u)
    ensures Kept([t, u]) == [t]
  {
    var id := RawToolIdentity(t);
    assert [t, u][1..] == [u] && [u][1..] == [];
    assert Ordering.Firsts([u], RawToolIdentity, {id}) == [];
    assert {} + {id} == {id};
  }
}
