/** Model-visible tool names: sanitising, hash suffixes and fitting a name into 64 bytes. */
module ToolNames {
  import opened Common

  const MAX_TOOL_NAME_LENGTH := 64
  const CALLABLE_NAME_HASH_LEN := 12
  const HASH_SUFFIX_LEN := CALLABLE_NAME_HASH_LEN + 1
  const U32_MAX := 0xFFFF_FFFF

  predicate CleanChar(c: char) {
    'a' <= c <= 'z' || 'A' <= c <= 'Z' || '0' <= c <= '9' || c == '_'
  }

  /** Only `[A-Za-z0-9_]`: what the Responses API accepts in a tool name. */
  predicate Clean(s: string) {
    forall i :: 0 <= i < |s| ==> CleanChar(s[i])
  }

  /** In ASCII codes: the digits, the two cases of letters, and the underscore. */
  lemma CleanCharIs(c: char)
    ensures var n := c as int; CleanChar(c) <==> 48 <= n < 58 || 65 <= n < 91 || 97 <= n < 123 || n == 95
  {
  }

  predicate HexDigest(s: string) {
    |s| == 40 && forall i :: 0 <= i < |s| ==> '0' <= s[i] <= '9' || 'a' <= s[i] <= 'f'
  }

  /** A stand-in for SHA-1: any function to forty lower-case hexadecimal digits. */
  type Digest = f: string -> string | forall s :: HexDigest(f(s))
    witness (s: string) => "0000000000000000000000000000000000000000"

  /** Bytes one code point takes in UTF-8. */
  function CharBytes(c: char): (n: nat)
    ensures CleanChar(c) ==> n == 1
  {
    if c < '\U{80}' then 1 else if c < '\U{800}' then 2 else if c < '\U{10000}' then 3 else 4
  }

  /** One byte carries 7 bits of a code point, and `n` of them together `5 * n + 1`: 11, 16 and 21. */
  lemma CharBytesIs(c: char)
    ensures var code, limits := c as int, [0, 128, 2048, 65536, 2097152];
      var n := CharBytes(c); 1 <= n <= 4 && limits[n] > code && (n > 1 ==> limits[n - 1] <= code)
  {
  }

  /** `str::len`: the length in bytes. */
  function ByteLen(s: string): (n: nat)
    ensures Clean(s) ==> n == |s|
  {
    if s == [] then 0 else CharBytes(s[0]) + ByteLen(s[1..])
  }

  function SanitizeChar(c: char): (r: char)
    ensures CleanChar(r)
  {
    if CleanChar(c) then c else '_'
  }

  function SanitizeChars(s: string): (r: string)
    ensures |r| == |s| && Clean(r)
    ensures forall i :: 0 <= i < |s| ==> r[i] == SanitizeChar(s[i])
  {
    if s == [] then [] else [SanitizeChar(s[0])] + SanitizeChars(s[1..])
  }

  function Sanitize(s: string): (r: string)
    ensures Clean(r) && r != []
    ensures s != [] && Clean(s) ==> r == s
  {
    if s == [] then "_" else SanitizeChars(s)
  }

  /** The sanitiser's loop over the characters of the name. */
  method SanitizeName(name: string) returns (sanitized: string)
    ensures sanitized == Sanitize(name)
  {
    sanitized := [];
    for i := 0 to |name|
      invariant |sanitized| == i
      invariant forall k :: 0 <= k < i ==> sanitized[k] == SanitizeChar(name[k])
    {
      sanitized := sanitized + [if CleanChar(name[i]) then name[i] else '_'];
    }
    if sanitized == [] {
      sanitized := "_";
    } else {
      assert sanitized == SanitizeChars(name);
    }
  }

  function HashSuffix(sha1: Digest, raw: string): (r: string)
    ensures |r| == HASH_SUFFIX_LEN && Clean(r)
  {
    "_" + sha1(raw)[..CALLABLE_NAME_HASH_LEN]
  }

  function AppendHash(sha1: Digest, value: string, raw: string): (r: string)
    ensures Clean(value) ==> Clean(r)
  {
    value + HashSuffix(sha1, raw)
  }

  predicate EndsWithDelimiter(s: string) {
    |s| >= 2 && s[|s| - 2..] == "__"
  }

  /** Puts the hash before a trailing `__` delimiter, so the delimiter survives. */
  function AppendNamespaceHash(sha1: Digest, namespace: string, raw: string): (r: string)
    ensures Clean(namespace) ==> Clean(r)
    ensures EndsWithDelimiter(namespace) ==> EndsWithDelimiter(r)
  {
    if EndsWithDelimiter(namespace) then
      var r := namespace[..|namespace| - 2] + HashSuffix(sha1, raw) + "__";
      assert r[|r| - 2..] == "__";
      r
    else
      AppendHash(sha1, namespace, raw)
  }

  /** Two raw identities that share a namespace are told apart exactly when their suffixes differ. */
  lemma NamespaceHashSeparates(sha1: Digest, namespace: string, raw1: string, raw2: string)
    ensures AppendNamespaceHash(sha1, namespace, raw1) == AppendNamespaceHash(sha1, namespace, raw2)
            <==> HashSuffix(sha1, raw1) == HashSuffix(sha1, raw2)
  {
    if EndsWithDelimiter(namespace) {
      MiddleDetermines(namespace[..|namespace| - 2], HashSuffix(sha1, raw1), HashSuffix(sha1, raw2), "__");
    } else {
      MiddleDetermines(namespace, HashSuffix(sha1, raw1), HashSuffix(sha1, raw2), "");
      assert forall s: string :: s + "" == s;
    }
  }

  lemma MiddleDetermines(before: string, middle1: string, middle2: string, after: string)
    requires |middle1| == |middle2|
    ensures before + middle1 + after == before + middle2 + after <==> middle1 == middle2
  {
    var s1, s2 := before + middle1 + after, before + middle2 + after;
    assert s1[|before|..|before| + |middle1|] == middle1;
    assert s2[|before|..|before| + |middle2|] == middle2;
  }

  function Truncate(value: string, maxLen: nat): (r: string)
    ensures |r| <= maxLen && r <= value
  {
    if |value| <= maxLen then value else value[..maxLen]
  }

  datatype Parts = Parts(namespace: string, name: string) {
    function Qualified(): string { namespace + name }
  }

  function Fit(sha1: Digest, namespace: string, name: string, raw: string): Parts {
    var suffix := HashSuffix(sha1, raw);
    var taken := ByteLen(namespace);
    var maxToolLen := if taken <= MAX_TOOL_NAME_LENGTH then MAX_TOOL_NAME_LENGTH - taken else 0;
    if maxToolLen >= ByteLen(suffix) then
      Parts(namespace, Truncate(name, maxToolLen - ByteLen(suffix)) + suffix)
    else
      Parts(Truncate(namespace, MAX_TOOL_NAME_LENGTH - ByteLen(suffix)), suffix)
  }

  /** What every fitted name of one tool starts with, whatever is hashed. */
  ghost function FitPrefix(namespace: string, name: string): (r: string)
    ensures |r| <= MAX_TOOL_NAME_LENGTH - HASH_SUFFIX_LEN
    ensures Clean(namespace) && Clean(name) ==> Clean(r)
  {
    var room := MAX_TOOL_NAME_LENGTH - HASH_SUFFIX_LEN;
    if |namespace| <= room then namespace + Truncate(name, room - |namespace|) else Truncate(namespace, room)
  }

  /** A fitted name is a prefix that ignores the hash input, then the hash suffix; it never exceeds 64 bytes. */
  lemma FitShape(sha1: Digest, namespace: string, name: string, raw: string)
    requires Clean(namespace) && Clean(name)
    ensures var p := Fit(sha1, namespace, name, raw);
            && p.Qualified() == FitPrefix(namespace, name) + HashSuffix(sha1, raw)
            && Clean(p.namespace) && Clean(p.name)
            && ByteLen(p.Qualified()) <= MAX_TOOL_NAME_LENGTH
  {
    var p := Fit(sha1, namespace, name, raw);
    var suffix := HashSuffix(sha1, raw);
    assert p.Qualified() == FitPrefix(namespace, name) + suffix;
    assert Clean(p.Qualified());
  }

  /** The first characters of a text, at most `n`. */
  ghost function UpTo(s: string, n: nat): string { if |s| <= n then s else s[..n] }

  /** Fitting cuts the readable text to 51 characters and adds the suffix; a namespace of that size survives whole. */
  lemma FitText(sha1: Digest, namespace: string, name: string, raw: string)
    requires Clean(namespace) && Clean(name)
    ensures var p := Fit(sha1, namespace, name, raw);
            && p.Qualified() == UpTo(namespace + name, 51) + "_" + sha1(raw)[..12]
            && p.namespace == UpTo(namespace, 51)
  {
    FitShape(sha1, namespace, name, raw);
    FitPrefixIs(namespace, name);
    var cut := UpTo(namespace + name, 51);
    assert cut + HashSuffix(sha1, raw) == cut + "_" + sha1(raw)[..12];
    FitNamespace(sha1, namespace, name, raw);
  }

  lemma FitPrefixIs(namespace: string, name: string)
    ensures FitPrefix(namespace, name) == UpTo(namespace + name, 51)
  {
  }

  lemma FitNamespace(sha1: Digest, namespace: string, name: string, raw: string)
    requires Clean(namespace)
    ensures Fit(sha1, namespace, name, raw).namespace == UpTo(namespace, 51)
  {
  }

  /** What the `attempt`-th round of the allocation loop hashes. */
  function HashInput(raw: string, attempt: nat): string {
    if attempt == 0 then raw else raw + "\0" + Decimal(attempt)
  }

  /** The first round hashes the raw identity, a later one its number after a NUL: no two hash the same text. */
  lemma HashInputsDiffer(raw: string, a: nat, b: nat)
    ensures HashInput(raw, 0) == raw
    ensures a > 0 ==> |HashInput(raw, a)| > |raw| && HashInput(raw, a)[..|raw| + 1] == raw + "\0"
    ensures a > 0 ==> Number(HashInput(raw, a)[|raw| + 1..]) == a
    ensures HashInput(raw, a) == HashInput(raw, b) ==> a == b
  {
    DecimalRoundTrip(a);
    DecimalRoundTrip(b);
    assert a > 0 ==> HashInput(raw, a)[|raw| + 1..] == Decimal(a);
    assert b > 0 ==> HashInput(raw, b)[|raw| + 1..] == Decimal(b);
  }

  function Attempt(sha1: Digest, namespace: string, name: string, raw: string, attempt: nat): Parts {
    Fit(sha1, namespace, name, HashInput(raw, attempt))
  }

  /** The qualified name each attempt would try. */
  function AttemptNames(sha1: Digest, namespace: string, name: string, raw: string): nat -> string {
    (attempt: nat) => Attempt(sha1, namespace, name, raw, attempt).Qualified()
  }

  /**
    The allocation loop from a given attempt on: the first attempt whose name is free. The counter is a
    saturating 32-bit number, so after attempt `U32_MAX` the loop repeats itself: `None` says it never returns.
   */
  function FirstFree(names: nat -> string, used: set<string>, attempt: nat): Option<nat>
    requires attempt <= U32_MAX
    decreases U32_MAX - attempt
  {
    if names(attempt) !in used then Some(attempt)
    else if attempt == U32_MAX then None
    else FirstFree(names, used, attempt + 1)
  }

  /** The loop finds the first attempt whose name is free, and runs for ever exactly when there is none. */
  lemma {:induction false} FirstFreeIsFirst(names: nat -> string, used: set<string>, attempt: nat)
    requires attempt <= U32_MAX
    ensures var r := FirstFree(names, used, attempt);
            && (r.None? <==> forall a :: attempt <= a <= U32_MAX ==> names(a) in used)
            && (r.Some? ==>
                  && attempt <= r.value <= U32_MAX && names(r.value) !in used
                  && forall a :: attempt <= a < r.value ==> names(a) in used)
    decreases U32_MAX - attempt
  {
    if names(attempt) in used && attempt < U32_MAX {
      FirstFreeIsFirst(names, used, attempt + 1);
    }
  }

  lemma FirstFreeIs(names: nat -> string, used: set<string>, attempt: nat)
    requires attempt <= U32_MAX && names(attempt) !in used
    requires forall a :: 0 <= a < attempt ==> names(a) in used
    ensures FirstFree(names, used, 0) == Some(attempt)
  {
    FirstFreeIsFirst(names, used, 0);
    var first := FirstFree(names, used, 0);
    assert first.Some? && !(first.value < attempt) && !(attempt < first.value);
  }

  /** Names that differ on the first `|used| + 1` attempts cannot all be in `used`. */
  lemma FirstFreeWithin(names: nat -> string, used: set<string>)
    requires |used| <= U32_MAX
    requires forall a, b :: 0 <= a < b <= |used| ==> names(a) != names(b)
    ensures var first := FirstFree(names, used, 0);
            first.Some? && first.value <= |used|
  {
    FirstFreeIsFirst(names, used, 0);
    if forall a :: 0 <= a <= |used| ==> names(a) in used {
      DistinctFits(seq(|used| + 1, (a: nat) => names(a)), used);
    }
  }

  /** Whether the readable name is short enough and still free. */
  predicate PlainIsFree(namespace: string, name: string, used: set<string>) {
    ByteLen(namespace + name) <= MAX_TOOL_NAME_LENGTH && namespace + name !in used
  }

  function Unique(sha1: Digest, namespace: string, name: string, raw: string, used: set<string>): Option<Parts> {
    if PlainIsFree(namespace, name, used) then Some(Parts(namespace, name))
    else
      match FirstFree(AttemptNames(sha1, namespace, name, raw), used, 0)
      case Some(a) => Some(Attempt(sha1, namespace, name, raw, a))
      case None => None
  }

  /** Every allocated name is new, clean and at most 64 bytes. */
  lemma UniqueSound(sha1: Digest, namespace: string, name: string, raw: string, used: set<string>)
    requires Clean(namespace) && Clean(name)
    ensures var r := Unique(sha1, namespace, name, raw, used);
            r.Some? ==>
              && r.value.Qualified() !in used
              && Clean(r.value.Qualified())
              && ByteLen(r.value.Qualified()) <= MAX_TOOL_NAME_LENGTH
  {
    var first := FirstFree(AttemptNames(sha1, namespace, name, raw), used, 0);
    if !PlainIsFree(namespace, name, used) && first.Some? {
      FirstFreeIsFirst(AttemptNames(sha1, namespace, name, raw), used, 0);
      FitShape(sha1, namespace, name, HashInput(raw, first.value));
    }
  }

  /** An allocation never returns exactly when the readable name and those of all attempts up to the limit are taken. */
  lemma NeverReturnsIff(sha1: Digest, namespace: string, name: string, raw: string, used: set<string>)
    ensures Unique(sha1, namespace, name, raw, used).None? <==>
            && !PlainIsFree(namespace, name, used)
            && forall a :: 0 <= a <= 4294967295 ==> AttemptNames(sha1, namespace, name, raw)(a) in used
  {
    FirstFreeIsFirst(AttemptNames(sha1, namespace, name, raw), used, 0);
  }

  /** So for every digest and every tool there are names whose being taken stops it from ever returning. */
  lemma NeverReturns(sha1: Digest, namespace: string, name: string, raw: string) returns (used: set<string>)
    ensures Unique(sha1, namespace, name, raw, used).None?
  {
    var names := AttemptNames(sha1, namespace, name, raw);
    used := {namespace + name} + set a: nat | a <= U32_MAX :: names(a);
    NeverReturnsIff(sha1, namespace, name, raw, used);
  }

  /** The hash suffixes of attempts `0, ..., n - 1` are pairwise different. */
  ghost predicate SuffixesDiffer(sha1: Digest, raw: string, n: nat) {
    forall a, b :: 0 <= a < b < n ==> HashSuffix(sha1, HashInput(raw, a)) != HashSuffix(sha1, HashInput(raw, b))
  }

  /**
    The prefix is the same on every attempt, so two attempts give different names exactly when their suffixes differ.
   */
  lemma AttemptsDiffer(sha1: Digest, namespace: string, name: string, raw: string, a: nat, b: nat)
    requires Clean(namespace) && Clean(name)
    ensures AttemptNames(sha1, namespace, name, raw)(a) != AttemptNames(sha1, namespace, name, raw)(b) <==>
            HashSuffix(sha1, HashInput(raw, a)) != HashSuffix(sha1, HashInput(raw, b))
  {
    var prefix := FitPrefix(namespace, name);
    var suffixA, suffixB := HashSuffix(sha1, HashInput(raw, a)), HashSuffix(sha1, HashInput(raw, b));
    FitShape(sha1, namespace, name, HashInput(raw, a));
    FitShape(sha1, namespace, name, HashInput(raw, b));
    assert (prefix + suffixA)[|prefix|..] == suffixA;
    assert (prefix + suffixB)[|prefix|..] == suffixB;
  }

  /**
    The loop stops within `|used| + 1` attempts when that many successive suffixes differ, because that many
    different names cannot all be in `used`.
   */
  lemma AllocationStops(sha1: Digest, namespace: string, name: string, raw: string, used: set<string>)
    requires Clean(namespace) && Clean(name)
    requires |used| <= U32_MAX
    requires SuffixesDiffer(sha1, raw, |used| + 1)
    ensures var first := FirstFree(AttemptNames(sha1, namespace, name, raw), used, 0);
            first.Some? && first.value <= |used|
    ensures Unique(sha1, namespace, name, raw, used).Some?
  {
    var names := AttemptNames(sha1, namespace, name, raw);
    forall a, b | 0 <= a < b <= |used| ensures names(a) != names(b) {
      AttemptsDiffer(sha1, namespace, name, raw, a, b);
    }
    FirstFreeWithin(names, used);
  }

  /** The allocation loop as written, over the name that each attempt computes. */
  method FirstFreeAttempt(names: nat -> string, used: set<string>) returns (r: Option<nat>)
    ensures r == FirstFree(names, used, 0)
  {
    var attempt := 0;
    while names(attempt) in used
      invariant 0 <= attempt <= U32_MAX
      invariant forall a :: 0 <= a < attempt ==> names(a) in used
      decreases U32_MAX - attempt
    {
      if attempt == U32_MAX {
        FirstFreeIsFirst(names, used, 0);
        return None;
      }
      attempt := attempt + 1;
    }
    FirstFreeIs(names, used, attempt);
    r := Some(attempt);
  }

  /**
    One allocation, with the set of used names threaded through. A `None` result stands for a call that
    never returns; the used names are then those at the call.
   */
  method UniqueCallableParts(sha1: Digest, namespace: string, name: string, raw: string, used: set<string>)
    returns (r: Option<Parts>, used': set<string>)
    ensures r == Unique(sha1, namespace, name, raw, used)
    ensures used' == if r.Some? then used + {r.value.Qualified()} else used
  {
    var qualified := namespace + name;
    if ByteLen(qualified) <= MAX_TOOL_NAME_LENGTH && qualified !in used {
      return Some(Parts(namespace, name)), used + {qualified};
    }
    var attempt := FirstFreeAttempt(AttemptNames(sha1, namespace, name, raw), used);
    match attempt {
      case None =>
        return None, used;
      case Some(a) =>
        var p := Attempt(sha1, namespace, name, raw, a);
        return Some(p), used + {p.Qualified()};
    }
  }
}
