/** The bounded filter that keeps repeated "app used" and "plugin used" events out of the analytics queue. */
module Dedupe {
  import opened Common

  const MAX_KEYS := 4096

  /** A full set is emptied before the next key is looked at. */
  function Room<K>(emitted: set<K>): set<K> { if |emitted| >= MAX_KEYS then {} else emitted }

  function Inserted<K>(emitted: set<K>, key: K): set<K> { Room(emitted) + {key} }

  predicate IsNew<K(==)>(emitted: set<K>, key: K) { key !in Room(emitted) }

  class AnalyticsEventsQueue {
    var appUsedEmittedKeys: set<(string, string)>
    var pluginUsedEmittedKeys: set<(string, string)>

    constructor ()
      ensures appUsedEmittedKeys == {} && pluginUsedEmittedKeys == {}
    {
      appUsedEmittedKeys, pluginUsedEmittedKeys := {}, {};
    }

    /** An app without a connector is always let through and never remembered. */
    method ShouldEnqueueAppUsed(turn: string, connector: Option<string>) returns (accept: bool)
      modifies this`appUsedEmittedKeys
      ensures connector.None? ==> accept && appUsedEmittedKeys == old(appUsedEmittedKeys)
      ensures connector.Some? ==>
        && accept == IsNew(old(appUsedEmittedKeys), (turn, connector.value))
        && appUsedEmittedKeys == Inserted(old(appUsedEmittedKeys), (turn, connector.value))
    {
      if connector.None? {
        return true;
      }
      if |appUsedEmittedKeys| >= MAX_KEYS {
        appUsedEmittedKeys := {};
      }
      accept := (turn, connector.value) !in appUsedEmittedKeys;
      appUsedEmittedKeys := appUsedEmittedKeys + {(turn, connector.value)};
    }

    method ShouldEnqueuePluginUsed(turn: string, pluginKey: string) returns (accept: bool)
      modifies this`pluginUsedEmittedKeys
      ensures accept == IsNew(old(pluginUsedEmittedKeys), (turn, pluginKey))
      ensures pluginUsedEmittedKeys == Inserted(old(pluginUsedEmittedKeys), (turn, pluginKey))
    {
      if |pluginUsedEmittedKeys| >= MAX_KEYS {
        pluginUsedEmittedKeys := {};
      }
      accept := (turn, pluginKey) !in pluginUsedEmittedKeys;
      pluginUsedEmittedKeys := pluginUsedEmittedKeys + {(turn, pluginKey)};
    }
  }

  // ---- Whole runs ----

  /** The remembered keys after the first `n` calls. */
  ghost function After<K>(keys: seq<K>, n: int): set<K>
    requires 0 <= n <= |keys|
  {
    if n == 0 then {} else Inserted(After(keys, n - 1), keys[n - 1])
  }

  ghost predicate Accepted<K>(keys: seq<K>, i: int) {
    0 <= i < |keys| && IsNew(After(keys, i), keys[i])
  }

  /** Call `i` finds the set full and empties it. */
  ghost predicate Clears<K>(keys: seq<K>, i: int) {
    0 <= i < |keys| && |After(keys, i)| >= MAX_KEYS
  }

  lemma {:induction false} NeverOverfull<K>(keys: seq<K>, n: nat)
    requires n <= |keys|
    ensures |After(keys, n)| <= 4096
  {
    if n == 0 {
    } else {
      NeverOverfull(keys, n - 1);
    }
  }

  // ---- What the filter remembers ----

  /**
    The set was last empty just before call `c`: at the start, or because call `c` cleared it, and no call before `n`
    since.
   */
  ghost predicate EmptyBefore<K>(keys: seq<K>, c: int, n: int) {
    0 <= c <= n <= |keys| && (c == 0 || Clears(keys, c)) && forall d :: c < d < n ==> !Clears(keys, d)
  }

  lemma ElementsGrow<K(!new)>(keys: seq<K>, c: nat, m: nat)
    requires c <= m < |keys|
    ensures Elements(keys[c..m + 1]) == Elements(keys[c..m]) + {keys[m]}
  {
    assert keys[c..m + 1] == keys[c..m] + [keys[m]];
  }

  /** The set holds exactly the keys that came since. */
  lemma {:induction false} Remembers<K(!new)>(keys: seq<K>, c: nat, n: nat)
    requires EmptyBefore(keys, c, n) && c < n
    ensures After(keys, n) == Elements(keys[c..n])
  {
    var m := n - 1;
    assert Room(After(keys, m)) == Elements(keys[c..m]) by {
      if c == m {
        assert keys[c..m] == [];
      } else {
        Remembers(keys, c, m);
        assert !Clears(keys, m);
      }
    }
    ElementsGrow(keys, c, m);
  }

  /**
    The next call to clear is the first to find 4096 different keys since the last clear, so the keys alone decide it.
   */
  lemma NextClear<K(!new)>(keys: seq<K>, c: nat, i: nat)
    requires EmptyBefore(keys, c, i) && c < i < |keys|
    ensures Clears(keys, i) <==> |Elements(keys[c..i])| == 4096
  {
    Remembers(keys, c, i);
    NeverOverfull(keys, i);
  }

  /** Call `c` is the last to clear at or before call `i`, or is the first call when none has. */
  ghost predicate LastClear<K>(keys: seq<K>, i: int, c: int) {
    0 <= c <= i < |keys| && (c == 0 || Clears(keys, c)) && forall d :: c < d <= i ==> !Clears(keys, d)
  }

  lemma {:induction false} FindLastClear<K>(keys: seq<K>, i: nat) returns (c: nat)
    requires i < |keys|
    ensures LastClear(keys, i, c)
  {
    if i == 0 || Clears(keys, i) {
      c := i;
    } else {
      c := FindLastClear(keys, i - 1);
    }
  }

  /** A call is accepted exactly when its key has not come since the last clear. */
  lemma AcceptedIffNewSinceClear<K(!new)>(keys: seq<K>, i: nat, c: nat)
    requires LastClear(keys, i, c)
    ensures Accepted(keys, i) <==> keys[i] !in keys[c..i]
  {
    if c < i {
      Remembers(keys, c, i);
      assert !Clears(keys, i);
    }
  }

  predicate Unseen<K(==)>(keys: seq<K>, i: nat)
    requires i < |keys|
  {
    keys[i] !in keys[..i]
  }

  /** A call departs from an unbounded seen-set exactly when its key came before the last clear and not since. */
  lemma AgreesWithSeenSet<K(!new)>(keys: seq<K>, i: nat, c: nat)
    requires LastClear(keys, i, c)
    ensures (Accepted(keys, i) <==> Unseen(keys, i)) <==> !(keys[i] in keys[..c] && keys[i] !in keys[c..i])
  {
    AcceptedIffNewSinceClear(keys, i, c);
    assert keys[..i] == keys[..c] + keys[c..i];
  }

  /** It does so at every clear that meets a key seen before: the set is emptied before the key is looked up. */
  lemma FullSetAcceptsRepeats<K(!new)>(keys: seq<K>, i: nat)
    requires Clears(keys, i)
    ensures Accepted(keys, i)
    ensures (Accepted(keys, i) <==> Unseen(keys, i)) <==> keys[i] !in keys[..i]
  {
  }

  /** A run that comes to it: 4096 different keys, then the first of them again. */
  lemma RepeatIsAccepted() returns (keys: seq<int>)
    ensures |keys| == 4097 && keys[4096] == keys[0]
    ensures Clears(keys, 4096) && Accepted(keys, 4096) && !Unseen(keys, 4096)
  {
    var first := seq(MAX_KEYS, i => i);
    keys := first + [0];
    assert keys[..MAX_KEYS] == first == keys[0..MAX_KEYS];
    DistinctCount(first);
    var n := MAX_KEYS - 1;
    DistinctCount(keys[..n]);
    NoClearBelowLimit(keys, n);
    NextClear(keys, 0, MAX_KEYS);
    assert first[0] == keys[0];
  }

  lemma {:induction false} MoreDistinct<K(!new)>(keys: seq<K>, n: nat, m: nat)
    requires n <= m <= |keys|
    ensures |Elements(keys[..n])| <= |Elements(keys[..m])|
  {
    if n == m {
    } else {
      MoreDistinct(keys, n, m - 1);
      assert keys[..m] == keys[..m - 1] + [keys[m - 1]];
      var before, key := Elements(keys[..m - 1]), keys[m - 1];
      assert Elements(keys[..m]) == before + {key};
      if key in before {
        assert before + {key} == before;
      }
    }
  }

  /** No call clears before 4096 different keys have come, and then the first one does. */
  lemma {:induction false} NoClearBelowLimit<K(!new)>(keys: seq<K>, i: nat)
    requires i < |keys| && |Elements(keys[..i])| < 4096
    ensures forall d :: 0 <= d <= i ==> !Clears(keys, d)
  {
    if i == 0 {
    } else {
      MoreDistinct(keys, i - 1, i);
      NoClearBelowLimit(keys, i - 1);
      assert keys[0..i] == keys[..i];
      NextClear(keys, 0, i);
    }
  }

  /** In particular a run with fewer than 4096 different keys answers as the seen-set does, call by call. */
  lemma AgreesBelowLimit<K(!new)>(keys: seq<K>, i: nat)
    requires i < |keys| && |Elements(keys[..i])| < 4096
    ensures Accepted(keys, i) <==> Unseen(keys, i)
  {
    NoClearBelowLimit(keys, i);
    AgreesWithSeenSet(keys, i, 0);
  }

  /** A key is accepted twice only if the set was emptied in between or just then. */
  lemma AcceptedTwiceAcrossClear<K(!new)>(keys: seq<K>, i: nat, j: nat) returns (c: nat)
    requires i < j < |keys| && keys[i] == keys[j] && Accepted(keys, j)
    ensures i < c <= j && Clears(keys, c)
  {
    c := FindLastClear(keys, j);
    if c <= i {
      assert keys[c..j][i - c] == keys[j];
    }
    AcceptedIffNewSinceClear(keys, j, c);
  }

  /** How many of the calls from `c` up to `n` were accepted. */
  ghost function AcceptedBetween<K>(keys: seq<K>, c: nat, n: nat): nat
    requires c <= n <= |keys|
  {
    if n == c then 0 else AcceptedBetween(keys, c, n - 1) + (if Accepted(keys, n - 1) then 1 else 0)
  }

  /** Since the start, or since a clear, the set holds one key for each accepted call. */
  lemma {:induction false} OneKeyPerAcceptance<K>(keys: seq<K>, c: nat, n: nat)
    requires EmptyBefore(keys, c, n) && c < n
    ensures |After(keys, n)| == AcceptedBetween(keys, c, n)
  {
    if c + 1 == n {
    } else {
      assert !Clears(keys, n - 1);
      OneKeyPerAcceptance(keys, c, n - 1);
    }
    var room := Room(After(keys, n - 1));
    if keys[n - 1] in room {
      assert room + {keys[n - 1]} == room;
    }
  }

  /** So exactly 4096 events pass between one clear and the next. */
  lemma ClearsEvery4096<K>(keys: seq<K>, c: nat, n: nat)
    requires EmptyBefore(keys, c, n) && c < n && Clears(keys, n)
    ensures AcceptedBetween(keys, c, n) == 4096
  {
    OneKeyPerAcceptance(keys, c, n);
    NeverOverfull(keys, n);
  }
}
