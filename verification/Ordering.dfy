/** The order on raw identities that tool candidates are sorted by, and why sorting forgets the input order. */
module Ordering {
  import opened Common

  /** Rust's `str` order: lexicographic on UTF-8 bytes, which is lexicographic on code points. */
  predicate Less(a: string, b: string) {
    b != [] && (a == [] || a[0] < b[0] || (a[0] == b[0] && Less(a[1..], b[1..])))
  }

  /** The first place where the two differ decides, and a proper prefix comes first. */
  ghost predicate DifferAt(a: string, b: string, k: nat) {
    k <= |a| && k < |b| && a[..k] == b[..k] && (k == |a| || a[k] < b[k])
  }

  lemma {:induction false} LessIff(a: string, b: string)
    ensures Less(a, b) <==> exists k: nat :: DifferAt(a, b, k)
  {
    if b == [] {
    } else if a == [] || a[0] != b[0] {
      assert (a == [] || a[0] < b[0]) ==> DifferAt(a, b, 0);
      assert forall k: nat :: DifferAt(a, b, k) && k > 0 ==> a[..k][0] == b[..k][0];
    } else {
      LessIff(a[1..], b[1..]);
      if k: nat :| DifferAt(a[1..], b[1..], k) {
        var l := k + 1;
        assert a[..l] == [a[0]] + a[1..][..k] && b[..l] == [b[0]] + b[1..][..k];
        assert DifferAt(a, b, l);
      }
      if l: nat :| DifferAt(a, b, l) {
        assert l > 0;
        var k := l - 1;
        assert a[1..][..k] == a[..l][1..] && b[1..][..k] == b[..l][1..];
        assert DifferAt(a[1..], b[1..], k);
      }
    }
  }

  lemma {:induction false} LessTotal(a: string, b: string)
    ensures Less(a, b) || a == b || Less(b, a)
  {
    if a != [] && b != [] && a[0] == b[0] {
      LessTotal(a[1..], b[1..]);
      if a[1..] == b[1..] {
        assert a == [a[0]] + a[1..] && b == [b[0]] + b[1..];
      }
    }
  }

  lemma {:induction false} LessTransitive(a: string, b: string, c: string)
    requires Less(a, b) && Less(b, c)
    ensures Less(a, c)
  {
    if a != [] && a[0] == b[0] == c[0] {
      LessTransitive(a[1..], b[1..], c[1..]);
    }
  }

  lemma {:induction false} LessIrreflexive(a: string)
    ensures !Less(a, a)
  {
    if a == [] {
    } else {
      LessIrreflexive(a[1..]);
    }
  }

  ghost predicate StrictlySorted<T>(s: seq<T>, key: T -> string) {
    forall i, j :: 0 <= i < j < |s| ==> Less(key(s[i]), key(s[j]))
  }

  /** Stable insertion: the standard library's `sort_by`, which is stable. */
  function Insert<T>(x: T, s: seq<T>, key: T -> string): (r: seq<T>)
    ensures multiset(r) == multiset{x} + multiset(s)
  {
    if s == [] || !Less(key(s[0]), key(x)) then [x] + s
    else
      assert s == [s[0]] + s[1..];
      [s[0]] + Insert(x, s[1..], key)
  }

  function Sort<T>(s: seq<T>, key: T -> string): (r: seq<T>)
    ensures multiset(r) == multiset(s)
  {
    if s == [] then []
    else
      assert s == [s[0]] + s[1..];
      Insert(s[0], Sort(s[1..], key), key)
  }

  lemma {:induction false} InsertSorted<T>(x: T, s: seq<T>, key: T -> string)
    requires StrictlySorted(s, key)
    requires forall y :: y in s ==> key(y) != key(x)
    ensures StrictlySorted(Insert(x, s, key), key)
  {
    if s == [] {
    } else if Less(key(s[0]), key(x)) {
      var rest := Insert(x, s[1..], key);
      InsertSorted(x, s[1..], key);
      forall y | y in rest ensures Less(key(s[0]), key(y)) {
        assert y in multiset(rest);
        if y in s[1..] {
          var k :| 1 <= k < |s| && s[k] == y;
        }
      }
    } else {
      LessTotal(key(x), key(s[0]));
      forall j | 0 < j < |s| ensures Less(key(x), key(s[j])) {
        LessTransitive(key(x), key(s[0]), key(s[j]));
      }
    }
  }

  /** No two positions of `s` have the same key. */
  ghost predicate DistinctKeys<T>(s: seq<T>, key: T -> string) {
    forall i, j :: 0 <= i < j < |s| ==> key(s[i]) != key(s[j])
  }

  lemma {:induction false} SortSorts<T>(s: seq<T>, key: T -> string)
    requires DistinctKeys(s, key)
    ensures StrictlySorted(Sort(s, key), key)
  {
    if s == [] {
    } else {
      SortSorts(s[1..], key);
      forall y | y in Sort(s[1..], key) ensures key(y) != key(s[0]) {
        assert y in multiset(s[1..]);
        var k :| 1 <= k < |s| && s[k] == y;
      }
      InsertSorted(s[0], Sort(s[1..], key), key);
    }
  }

  /** A strictly sorted sequence is determined by its elements. */
  lemma {:induction false} SortedIsUnique<T(!new)>(s: seq<T>, t: seq<T>, key: T -> string)
    requires StrictlySorted(s, key) && StrictlySorted(t, key)
    requires forall x :: x in s <==> x in t
    ensures s == t
  {
    assert (s != [] ==> s[0] in t) && (t != [] ==> t[0] in s);
    if s == [] {
    } else {
      FirstIsLeast(s, t, key);
      FirstIsLeast(t, s, key);
      LessIrreflexive(key(s[0]));
      if s[0] != t[0] {
        LessTransitive(key(s[0]), key(t[0]), key(s[0]));
      }
      forall x ensures x in s[1..] <==> x in t[1..] {
        RestAfterFirst(s, key, x);
        RestAfterFirst(t, key, x);
      }
      SortedIsUnique(s[1..], t[1..], key);
      assert s == [s[0]] + s[1..] && t == [t[0]] + t[1..];
    }
  }

  lemma FirstIsLeast<T>(s: seq<T>, t: seq<T>, key: T -> string)
    requires s != [] && t != [] && StrictlySorted(s, key) && t[0] in s
    ensures s[0] == t[0] || Less(key(s[0]), key(t[0]))
  {
    var k :| 0 <= k < |s| && s[k] == t[0];
    if k > 0 {
    }
  }

  lemma RestAfterFirst<T>(s: seq<T>, key: T -> string, x: T)
    requires s != [] && StrictlySorted(s, key)
    ensures x in s[1..] <==> x in s && x != s[0]
  {
    LessIrreflexive(key(s[0]));
    if x in s[1..] {
      var k :| 1 <= k < |s| && s[k] == x;
    }
  }

  /** Sorting by a key that tells the elements apart forgets the order they came in. */
  lemma SortForgetsOrder<T(!new)>(s: seq<T>, t: seq<T>, key: T -> string)
    requires DistinctKeys(s, key) && DistinctKeys(t, key)
    requires Elements(s) == Elements(t)
    ensures Sort(s, key) == Sort(t, key)
  {
    SortSorts(s, key);
    SortSorts(t, key);
    forall x ensures x in Sort(s, key) <==> x in Sort(t, key) {
      assert x in multiset(Sort(s, key)) <==> x in multiset(s);
      assert x in multiset(Sort(t, key)) <==> x in multiset(t);
      assert x in Elements(s) <==> x in Elements(t);
    }
    SortedIsUnique(Sort(s, key), Sort(t, key), key);
  }

  // ---- Keeping the first element for each key ----

  /** The elements whose key is new, in input order. */
  function Firsts<T>(s: seq<T>, key: T -> string, seen: set<string>): seq<T> {
    if s == [] then []
    else if key(s[0]) in seen then Firsts(s[1..], key, seen)
    else [s[0]] + Firsts(s[1..], key, seen + {key(s[0])})
  }

  ghost function Images<T>(s: seq<T>, key: T -> string): set<string> {
    set x | x in s :: key(x)
  }

  lemma ImagesCons<T>(x: T, s: seq<T>, key: T -> string)
    ensures Images([x] + s, key) == {key(x)} + Images(s, key)
  {
    assert forall y :: y in [x] + s <==> y == x || y in s;
  }

  /** Between them the kept elements have every key not already seen. */
  lemma {:induction false} FirstsImages<T>(s: seq<T>, key: T -> string, seen: set<string>)
    ensures Images(Firsts(s, key, seen), key) == Images(s, key) - seen
  {
    if s == [] {
    } else {
      var seen' := seen + {key(s[0])};
      assert s == [s[0]] + s[1..];
      ImagesCons(s[0], s[1..], key);
      if key(s[0]) in seen {
        FirstsImages(s[1..], key, seen);
      } else {
        FirstsImages(s[1..], key, seen');
        ImagesCons(s[0], Firsts(s[1..], key, seen'), key);
      }
    }
  }

  /** The kept elements come from the input and have pairwise different keys. */
  lemma {:induction false} FirstsDistinct<T>(s: seq<T>, key: T -> string, seen: set<string>)
    ensures DistinctKeys(Firsts(s, key, seen), key)
    ensures forall i :: 0 <= i < |Firsts(s, key, seen)| ==> Firsts(s, key, seen)[i] in s
  {
    if s == [] {
    } else {
      var seen' := seen + {key(s[0])};
      if key(s[0]) in seen {
        FirstsDistinct(s[1..], key, seen);
      } else {
        var rest := Firsts(s[1..], key, seen');
        FirstsDistinct(s[1..], key, seen');
        FirstsImages(s[1..], key, seen');
        forall i | 0 <= i < |rest| ensures key(rest[i]) != key(s[0]) {
          assert key(rest[i]) in Images(rest, key);
        }
      }
    }
  }

  lemma {:induction false} FirstsOfDistinct<T(!new)>(s: seq<T>, key: T -> string, seen: set<string>)
    requires DistinctKeys(s, key)
    requires forall x :: x in s ==> key(x) !in seen
    ensures Firsts(s, key, seen) == s
  {
    if s == [] {
    } else {
      assert s[0] in s && s == [s[0]] + s[1..];
      FirstsOfDistinct(s[1..], key, seen + {key(s[0])});
    }
  }

  lemma {:induction false} ImagesCount<T>(s: seq<T>, key: T -> string)
    requires DistinctKeys(s, key)
    ensures |Images(s, key)| == |s|
  {
    if s == [] {
    } else {
      assert s == [s[0]] + s[1..];
      ImagesCons(s[0], s[1..], key);
      ImagesCount(s[1..], key);
    }
  }

  // ---- Sorting and mapping ----

  lemma {:induction false} InsertApply<T, U>(x: T, s: seq<T>, key: T -> string, f: T -> U)
    ensures multiset(Apply(f, Insert(x, s, key))) == multiset{f(x)} + multiset(Apply(f, s))
  {
    if s == [] || !Less(key(s[0]), key(x)) {
      assert Apply(f, [x] + s) == [f(x)] + Apply(f, s);
    } else {
      var rest := Insert(x, s[1..], key);
      InsertApply(x, s[1..], key, f);
      assert Apply(f, [s[0]] + rest) == [f(s[0])] + Apply(f, rest);
    }
  }

  lemma {:induction false} SortApply<T, U>(s: seq<T>, key: T -> string, f: T -> U)
    ensures multiset(Apply(f, Sort(s, key))) == multiset(Apply(f, s))
  {
    if s == [] {
    } else {
      SortApply(s[1..], key, f);
      InsertApply(s[0], Sort(s[1..], key), key, f);
    }
  }

  lemma SortKeepsAll<T(!new)>(s: seq<T>, key: T -> string, p: T -> bool)
    requires forall i :: 0 <= i < |s| ==> p(s[i])
    ensures |Sort(s, key)| == |s|
    ensures forall i :: 0 <= i < |Sort(s, key)| ==> p(Sort(s, key)[i])
  {
    var r := Sort(s, key);
    assert |r| == |multiset(r)| == |multiset(s)| == |s|;
    forall i | 0 <= i < |r| ensures p(r[i]) {
      assert r[i] in multiset(s);
    }
  }

  lemma SortFinds<T>(s: seq<T>, key: T -> string, i: nat) returns (j: nat)
    requires i < |s|
    ensures j < |Sort(s, key)| && Sort(s, key)[j] == s[i]
  {
    var r := Sort(s, key);
    assert s[i] in multiset(r);
    j :| 0 <= j < |r| && r[j] == s[i];
  }
}
