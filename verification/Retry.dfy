/** Bounded retries with exponential, jittered, saturating delays. */
module Retry {
  import opened Common

  const U64_MAX := 0xFFFF_FFFF_FFFF_FFFF
  const U32_SIZE := 0x1_0000_0000

  datatype TransportError = Http(status: nat) | RetryLimit | Timeout | Network | Build

  datatype RetryOn = RetryOn(retry429: bool, retry5xx: bool, retryTransport: bool)

  datatype Policy = Policy(maxAttempts: nat, baseMillis: nat, retryOn: RetryOn)

  predicate Retryable(on: RetryOn, err: TransportError) {
    match err
    case Http(status) => (on.retry429 && status == 429) || (on.retry5xx && 500 <= status < 600)
    case Timeout => on.retryTransport
    case Network => on.retryTransport
    case _ => false
  }

  predicate ShouldRetry(on: RetryOn, err: TransportError, attempt: nat, maxAttempts: nat) {
    attempt < maxAttempts && Retryable(on, err)
  }

  /** Each switch turns off exactly its own class of errors, and with all of them on nothing else is retried. */
  lemma SwitchesAreIndependent(on: RetryOn, err: TransportError)
    ensures Retryable(on.(retry429 := false), err) <==> Retryable(on, err) && err != Http(429)
    ensures Retryable(on.(retry5xx := false), err) <==> Retryable(on, err) && !(err.Http? && 500 <= err.status <= 599)
    ensures Retryable(on.(retryTransport := false), err) <==> Retryable(on, err) && !err.Timeout? && !err.Network?
    ensures Retryable(RetryOn(true, true, true), err) <==>
      err == Http(429) || (err.Http? && 500 <= err.status <= 599) || err.Timeout? || err.Network?
  {
  }

  // ---- Delays ----

  function Pow2(n: nat): (r: nat)
    ensures r > 0
  {
    if n == 0 then 1 else 2 * Pow2(n - 1)
  }

  function Saturate(n: nat): nat { if n <= U64_MAX then n else U64_MAX }

  /**
    The attempt is narrowed to 32 bits before one is taken off. With overflow checks the subtraction from zero panics,
    which is None; without them it wraps.
   */
  function Exponent(checked: bool, attempt: nat): Option<nat> {
    if attempt % U32_SIZE != 0 then Some(attempt % U32_SIZE - 1)
    else if checked then None
    else Some(U32_SIZE - 1)
  }

  /** The base delay is narrowed to 64 bits. */
  function Millis(baseMillis: nat): nat { baseMillis % (U64_MAX + 1) }

  /** Whole multiples of 2^64 milliseconds are lost, and shorter delays are unchanged. */
  lemma MillisIs(lost: nat, kept: nat)
    requires kept < 18446744073709551616
    ensures Millis(lost * 18446744073709551616 + kept) == kept
  {
  }

  type Jitter = j: real | 0.9 <= j < 1.1 witness 1.0

  /** A float product cast to `u64`: rounded down, and cut off at the largest value. */
  function Jittered(raw: nat, j: Jitter): nat { Saturate((raw as real * j).Floor) }

  function RawDelay(baseMillis: nat, exponent: nat): nat { Saturate(Millis(baseMillis) * Saturate(Pow2(exponent))) }

  function Backoff(checked: bool, baseMillis: nat, attempt: nat, j: Jitter): Option<nat> {
    if attempt == 0 then Some(baseMillis)
    else
      match Exponent(checked, attempt)
      case None => None
      case Some(e) => Some(Jittered(RawDelay(baseMillis, e), j))
  }

  /** There is no delay exactly when overflow checks are on and the attempt is a positive multiple of 2^32. */
  lemma OverflowsIff(checked: bool, baseMillis: nat, attempt: nat, j: Jitter)
    ensures Backoff(checked, baseMillis, attempt, j).None? <==> checked && attempt > 0 && attempt % 4294967296 == 0
  {
  }

  // ---- The loop ----

  datatype Outcome<T> = Returned(result: Result<T, TransportError>) | Overflowed

  predicate Retries<T>(policy: Policy, result: Result<T, TransportError>) {
    result.Err? && Retryable(policy.retryOn, result.error)
  }

  /**
    `op(i)` is what the i-th attempt answers. The result is that of the first attempt that is not retryable, or of the
    last allowed one; the limit error after the loop is never reached.
   */
  method RunWithRetry<T>(checked: bool, policy: Policy, op: nat -> Result<T, TransportError>, jitter: nat -> Jitter)
    returns (r: Outcome<T>, calls: nat, slept: seq<nat>)
    requires policy.maxAttempts <= U64_MAX
    ensures 1 <= calls <= policy.maxAttempts + 1
    ensures forall i :: 0 <= i < calls - 1 ==> Retries(policy, op(i))
    ensures r.Returned? ==> r.result == op(calls - 1)
    ensures r.Returned? && calls - 1 < policy.maxAttempts ==> !Retries(policy, op(calls - 1))
    ensures r.Returned? ==> |slept| == calls - 1
    ensures forall i :: 0 <= i < |slept| ==> Backoff(checked, policy.baseMillis, i + 1, jitter(i)) == Some(slept[i])
    ensures r.Overflowed? ==>
      checked && calls % U32_SIZE == 0 && Retries(policy, op(calls - 1)) && calls - 1 < policy.maxAttempts
    ensures policy.maxAttempts < U32_SIZE ==> r.Returned?
  {
    calls, slept := 0, [];
    while calls <= policy.maxAttempts
      invariant calls <= policy.maxAttempts && |slept| == calls
      invariant forall i :: 0 <= i < calls ==> Retries(policy, op(i))
      invariant forall i :: 0 <= i < |slept| ==> Backoff(checked, policy.baseMillis, i + 1, jitter(i)) == Some(slept[i])
      decreases policy.maxAttempts - calls
    {
      var attempt := calls;
      calls := calls + 1;
      match op(attempt) {
        case Ok(_) => return Returned(op(attempt)), calls, slept;
        case Err(error) =>
          if !ShouldRetry(policy.retryOn, error, attempt, policy.maxAttempts) {
            return Returned(op(attempt)), calls, slept;
          }
          var delay := Backoff(checked, policy.baseMillis, attempt + 1, jitter(attempt));
          if delay.None? {
            return Overflowed, calls, slept;
          }
          slept := slept + [delay.value];
      }
    }
    assert false;
    r := Returned(Err(RetryLimit));
  }

  // ---- How long a run sleeps ----

  function Sum(s: seq<nat>): nat { if s == [] then 0 else Sum(s[..|s| - 1]) + s[|s| - 1] }

  lemma TenthsBelow(f: int, y: real, raw: nat)
    requires f as real <= y
    ensures y <= raw as real * 1.1 ==> 10 * f <= 11 * raw
    ensures y < raw as real * 1.1 ==> 10 * f < 11 * raw
  {
  }

  lemma JitteredBelow(raw: nat, j: Jitter)
    ensures 10 * Jittered(raw, j) <= 11 * raw
    ensures raw > 0 ==> 10 * Jittered(raw, j) < 11 * raw
  {
    var y := raw as real * j;
    assert y <= raw as real * 1.1 by { ScaleLess(raw as real, j, 1.1); }
    assert raw > 0 ==> y < raw as real * 1.1 by {
      if raw > 0 {
        ScaleStrict(raw as real, j, 1.1);
      }
    }
    TenthsBelow(y.Floor, y, raw);
    assert Jittered(raw, j) <= y.Floor;
  }

  lemma ScaleLess(x: real, a: real, b: real)
    requires x >= 0.0 && a <= b
    ensures x * a <= x * b
  {
  }

  lemma ScaleStrict(x: real, a: real, b: real)
    requires x > 0.0 && a < b
    ensures x * a < x * b
  {
  }

  lemma RawBelow(baseMillis: nat, exponent: nat)
    ensures RawDelay(baseMillis, exponent) <= baseMillis * Pow2(exponent)
  {
    var m, p := Millis(baseMillis), Pow2(exponent);
    MillisBelow(baseMillis);
    MulGrows(m, m, Saturate(p), p);
    MulGrows(m, baseMillis, p, p);
  }

  lemma MillisBelow(baseMillis: nat)
    ensures Millis(baseMillis) <= baseMillis
  {
  }

  lemma MulGrows(a: nat, a': nat, b: nat, b': nat)
    requires a <= a' && b <= b'
    ensures a * b <= a' * b'
  {
    assert a * b <= a' * b;
    assert a' * b <= a' * b';
  }

  /** One retry's delay is less than 1.1 times the doubled base. */
  lemma DelayBelow(baseMillis: nat, exponent: nat, j: Jitter)
    requires baseMillis > 0
    ensures 10 * Jittered(RawDelay(baseMillis, exponent), j) < 11 * (baseMillis * Pow2(exponent))
  {
    var raw := RawDelay(baseMillis, exponent);
    RawBelow(baseMillis, exponent);
    JitteredBelow(raw, j);
    assert baseMillis * Pow2(exponent) > 0;
  }

  ghost predicate DelaysOf(checked: bool, baseMillis: nat, jitter: nat -> Jitter, slept: seq<nat>) {
    forall i :: 0 <= i < |slept| ==> Backoff(checked, baseMillis, i + 1, jitter(i)) == Some(slept[i])
  }

  lemma DelayIs(checked: bool, baseMillis: nat, jitter: nat -> Jitter, slept: seq<nat>, i: nat)
    requires DelaysOf(checked, baseMillis, jitter, slept) && i < |slept| < U32_SIZE
    ensures slept[i] == Jittered(RawDelay(baseMillis, i), jitter(i))
  {
    assert Exponent(checked, i + 1) == Some(i);
  }

  /** `n` retries sleep less than 1.1 times base times (2^n - 1) milliseconds together. */
  lemma {:induction false} TotalSleep(checked: bool, baseMillis: nat, jitter: nat -> Jitter, slept: seq<nat>)
    requires baseMillis > 0 && DelaysOf(checked, baseMillis, jitter, slept) && 1 <= |slept| < U32_SIZE
    ensures Sum(slept) as real < 1.1 * (baseMillis * (Pow2(|slept|) - 1)) as real
  {
    TenTimesSleep(checked, baseMillis, jitter, slept);
  }

  lemma {:induction false} TenTimesSleep(checked: bool, baseMillis: nat, jitter: nat -> Jitter, slept: seq<nat>)
    requires baseMillis > 0 && DelaysOf(checked, baseMillis, jitter, slept) && |slept| < U32_SIZE
    ensures 10 * Sum(slept) <= 11 * (baseMillis * (Pow2(|slept|) - 1))
    ensures slept != [] ==> 10 * Sum(slept) < 11 * (baseMillis * (Pow2(|slept|) - 1))
  {
    if slept == [] {
    } else {
      var n := |slept| - 1;
      TenTimesSleep(checked, baseMillis, jitter, slept[..n]);
      DelayIs(checked, baseMillis, jitter, slept, n);
      DelayBelow(baseMillis, n, jitter(n));
      Doubled(baseMillis, n);
    }
  }

  lemma Doubled(base: nat, n: nat)
    ensures base * (Pow2(n + 1) - 1) == base * (Pow2(n) - 1) + base * Pow2(n)
  {
    var p := Pow2(n);
    assert base * (2 * p - 1) == base * (p - 1) + base * p;
  }

  // ---- How far a delay can be from its doubled base ----

  ghost predicate Unsaturated(baseMillis: nat, exponent: nat) { Millis(baseMillis) * Pow2(exponent) <= U64_MAX }

  lemma Grows(m: nat, p: nat)
    requires m > 0
    ensures p <= m * p
  {
  }

  lemma RawIsDoubledBase(baseMillis: nat, exponent: nat)
    requires Unsaturated(baseMillis, exponent)
    ensures RawDelay(baseMillis, exponent) == Millis(baseMillis) * Pow2(exponent)
  {
    var m, p := Millis(baseMillis), Pow2(exponent);
    if m > 0 {
      Grows(m, p);
      assert Saturate(p) == p;
    }
  }

  /** In exact numbers the raw delay is the base doubled that often, cut off at the largest 64-bit value. */
  lemma RawDelayIs(baseMillis: nat, exponent: nat)
    requires baseMillis <= 18446744073709551615
    ensures RawDelay(baseMillis, exponent) ==
            var exact := baseMillis * Pow2(exponent);
            if exact <= 18446744073709551615 then exact else 18446744073709551615
  {
    MillisIs(0, baseMillis);
    if baseMillis * Pow2(exponent) <= U64_MAX {
      RawIsDoubledBase(baseMillis, exponent);
    } else if Pow2(exponent) > U64_MAX {
      Grows(baseMillis, U64_MAX);
    }
  }

  lemma TenthsAbove(f: int, y: real, raw: nat)
    requires y < f as real + 1.0 && raw as real * 0.9 <= y
    ensures 9 * raw < 10 * (f + 1)
  {
  }

  lemma JitteredAbove(raw: nat, j: Jitter)
    requires raw <= U64_MAX
    ensures 9 * raw < 10 * (Jittered(raw, j) + 1)
  {
    var y := raw as real * j;
    assert raw as real * 0.9 <= y by { ScaleLess(raw as real, 0.9, j); }
    TenthsAbove(y.Floor, y, raw);
  }

  /** Until saturation the i-th retry waits between 0.9 and 1.1 times the base doubled i times. */
  lemma DelayWindow(checked: bool, baseMillis: nat, jitter: nat -> Jitter, slept: seq<nat>, i: nat)
    requires DelaysOf(checked, baseMillis, jitter, slept) && i < |slept| < U32_SIZE && Unsaturated(baseMillis, i)
    ensures 9 * (Millis(baseMillis) * Pow2(i)) < 10 * (slept[i] + 1)
    ensures 10 * slept[i] <= 11 * (Millis(baseMillis) * Pow2(i))
  {
    DelayIs(checked, baseMillis, jitter, slept, i);
    RawIsDoubledBase(baseMillis, i);
    JitteredAbove(RawDelay(baseMillis, i), jitter(i));
    JitteredBelow(RawDelay(baseMillis, i), jitter(i));
  }

  /** The same for a base of at most 64 bits, in its own terms. */
  lemma DelayWindowOfBase(checked: bool, baseMillis: nat, jitter: nat -> Jitter, slept: seq<nat>, i: nat)
    requires DelaysOf(checked, baseMillis, jitter, slept) && i < |slept| < U32_SIZE
    requires baseMillis * Pow2(i) <= 18446744073709551615
    ensures 9 * (baseMillis * Pow2(i)) < 10 * (slept[i] + 1)
    ensures 10 * slept[i] <= 11 * (baseMillis * Pow2(i))
  {
    BaseBelow(baseMillis, Pow2(i));
    MillisIs(0, baseMillis);
    DelayWindow(checked, baseMillis, jitter, slept, i);
  }

  lemma BaseBelow(base: nat, p: nat)
    requires p > 0
    ensures base <= base * p
  {
  }

  lemma {:induction false} Pow2Adds(m: nat, n: nat)
    ensures Pow2(m + n) == Pow2(m) * Pow2(n)
  {
    if n == 0 {
    } else {
      Pow2Adds(m, n - 1);
      var p, q := Pow2(m), Pow2(n - 1);
      assert 2 * (p * q) == p * (2 * q);
    }
  }

  lemma Pow2At64()
    ensures Pow2(64) == 18446744073709551616
  {
    var p4, p8, p16, p32 := Pow2(4), Pow2(8), Pow2(16), Pow2(32);
    assert Pow2(2) == 4;
    Pow2Adds(2, 2);
    Pow2Adds(4, 4);
    assert p8 == 256;
    Pow2Adds(8, 8);
    assert p16 == 65536;
    Pow2Adds(16, 16);
    assert p32 == 4294967296;
    Pow2Adds(32, 32);
  }

  lemma Pow2Large(n: nat)
    requires n >= 64
    ensures Pow2(n) > U64_MAX
  {
    Pow2At64();
    Pow2Adds(64, n - 64);
    BaseBelow(Pow2(64), Pow2(n - 64));
  }

  /**
    The delay before attempt 0 would be the plain base. Without overflow checks the delay on a positive multiple of
    2^32 is the largest one, whatever the base, unless the base is zero.
   */
  lemma WrappedDelay(baseMillis: nat, attempt: nat, j: Jitter)
    requires 0 < baseMillis <= 18446744073709551615 && attempt % 4294967296 == 0
    ensures Backoff(false, baseMillis, attempt, j) ==
            Some(if attempt == 0 then baseMillis else Jittered(18446744073709551615, j))
  {
    var e := 4294967295;
    Pow2Large(e);
    RawDelayIs(baseMillis, e);
    BaseBelow(Pow2(e), baseMillis);
  }

  // ---- When a later delay can be shorter ----

  /** No jitter makes a delay drawn from `b` shorter than one drawn from `a`. */
  predicate Outlasts(a: nat, b: nat) { 11 * a <= 10 * (9 * b / 10 + 1) }

  lemma LeastJittered(b: nat, j: Jitter)
    requires b <= U64_MAX
    ensures 9 * b / 10 <= Jittered(b, j)
  {
    JitteredAbove(b, j);
  }

  lemma LeastIsReached(b: nat)
    requires b <= U64_MAX
    ensures Jittered(b, 0.9) == 9 * b / 10
  {
    var y := b as real * 0.9;
    LeastJittered(b, 0.9);
    assert 10.0 * y == (9 * b) as real;
    assert 10 * y.Floor <= 9 * b;
  }

  lemma ScaleUp(x: real, a: real, b: real)
    requires x >= 0.0 && a <= b
    ensures a * x <= b * x
  {
  }

  lemma FloorAtLeast(y: real, n: int)
    requires n as real <= y
    ensures n <= y.Floor
  {
  }

  /** A jitter that lifts `a` to `n`, if one below 1.1 can. */
  lemma LiftingJitter(a: nat, n: nat) returns (j: Jitter)
    requires 10 * n < 11 * a && n <= U64_MAX
    ensures Jittered(a, j) >= n
  {
    var x := a as real;
    var q := n as real / x;
    assert q * x == n as real;
    assert q < 1.1 by {
      if q >= 1.1 {
        ScaleUp(x, 1.1, q);
      }
    }
    j := if q < 0.9 then 0.9 else q;
    ScaleUp(x, q, j);
    assert j * x == x * j;
    FloorAtLeast(x * j, n);
  }

  /** The two raw delays decide it, for all pairs of jitters at once. */
  lemma ShorterIff(a: nat, b: nat)
    requires b <= U64_MAX
    ensures (forall j: Jitter, j': Jitter :: Jittered(a, j) <= Jittered(b, j')) <==> Outlasts(a, b)
  {
    if Outlasts(a, b) {
      forall j: Jitter, j': Jitter ensures Jittered(a, j) <= Jittered(b, j') {
        JitteredBelow(a, j);
        LeastJittered(b, j');
      }
    } else {
      var j := LiftingJitter(a, 9 * b / 10 + 1);
      LeastIsReached(b);
      assert Jittered(a, j) > Jittered(b, 0.9);
    }
  }

  lemma RawNext(baseMillis: nat, exponent: nat)
    ensures RawDelay(baseMillis, exponent + 1) == Saturate(2 * RawDelay(baseMillis, exponent))
  {
    var m, p := Millis(baseMillis), Pow2(exponent);
    assert m * (2 * p) == 2 * (m * p);
    if m > 0 {
      Grows(m, Saturate(p));
      Grows(m, Saturate(2 * p));
    }
  }

  /** A later raw delay has at least doubled, or is the largest there is. */
  lemma {:induction false} RawLater(baseMillis: nat, i: nat, k: nat)
    requires i < k
    ensures RawDelay(baseMillis, k) >= Saturate(2 * RawDelay(baseMillis, i))
  {
    RawNext(baseMillis, k - 1);
    if i == k - 1 {
    } else {
      RawLater(baseMillis, i, k - 1);
    }
  }

  /** The largest raw delay that no later delay can fall below, about nine elevenths of the largest `u64`. */
  const LARGEST_SAFE_DELAY := 10 * (9 * U64_MAX / 10 + 1) / 11

  /** Whether a later delay outlasts an earlier one does not depend on how much later it is, once it is saturated. */
  lemma OutlastsIffSafe(baseMillis: nat, i: nat, k: nat)
    requires i < k
    ensures var a, b := RawDelay(baseMillis, i), RawDelay(baseMillis, k);
      Outlasts(a, b) <==> b < U64_MAX || a <= LARGEST_SAFE_DELAY
  {
    RawLater(baseMillis, i, k);
  }

  /** The delays of a run of `n` retries under these jitters. */
  function Delays(baseMillis: nat, jitter: nat -> Jitter, n: nat): seq<nat> {
    seq<nat>(n, (i: nat) => Jittered(RawDelay(baseMillis, i), jitter(i)))
  }

  lemma NthDelay(checked: bool, baseMillis: nat, i: nat, m: nat, j: Jitter)
    requires i < m == i + 1 < U32_SIZE
    ensures Backoff(checked, baseMillis, m, j) == Some(Jittered(RawDelay(baseMillis, i), j))
  {
    assert Exponent(checked, m) == Some(i);
  }

  lemma DelaysAreDelays(checked: bool, baseMillis: nat, jitter: nat -> Jitter, n: nat)
    requires n < U32_SIZE
    ensures DelaysOf(checked, baseMillis, jitter, Delays(baseMillis, jitter, n))
  {
    forall i | 0 <= i < n
      ensures Backoff(checked, baseMillis, i + 1, jitter(i)) == Some(Delays(baseMillis, jitter, n)[i])
    {
      NthDelay(checked, baseMillis, i, i + 1, jitter(i));
    }
  }

  /** In no run does retry `k` wait less than retry `i`. */
  ghost predicate NeverShrinks(checked: bool, baseMillis: nat, i: nat, k: nat) {
    forall jitter: nat -> Jitter, slept: seq<nat> ::
      DelaysOf(checked, baseMillis, jitter, slept) && i < |slept| && k < |slept| < U32_SIZE ==> slept[i] <= slept[k]
  }

  /**
    A later retry can wait less than an earlier one exactly when its raw delay is saturated and the earlier one's is
    above nine elevenths of the largest `u64`. Before saturation none can.
   */
  lemma DelaysDoNotShrink(checked: bool, baseMillis: nat, i: nat, k: nat)
    requires i < k < U32_SIZE - 1
    ensures NeverShrinks(checked, baseMillis, i, k) <==>
            RawDelay(baseMillis, k) < U64_MAX || RawDelay(baseMillis, i) <= LARGEST_SAFE_DELAY
  {
    var a, b := RawDelay(baseMillis, i), RawDelay(baseMillis, k);
    OutlastsIffSafe(baseMillis, i, k);
    ShorterIff(a, b);
    if Outlasts(a, b) {
      forall jitter: nat -> Jitter, slept: seq<nat> |
        DelaysOf(checked, baseMillis, jitter, slept) && i < |slept| && k < |slept| < U32_SIZE
        ensures slept[i] <= slept[k]
      {
        DelayIs(checked, baseMillis, jitter, slept, i);
        DelayIs(checked, baseMillis, jitter, slept, k);
      }
    } else {
      var j: Jitter, j': Jitter :| Jittered(a, j) > Jittered(b, j');
      var jitter, slept := ShrinkingRun(checked, baseMillis, i, k, j, j');
    }
  }

  lemma ShrinkingRun(checked: bool, baseMillis: nat, i: nat, k: nat, j: Jitter, j': Jitter)
    returns (jitter: nat -> Jitter, slept: seq<nat>)
    requires i < k < U32_SIZE - 1 && Jittered(RawDelay(baseMillis, i), j) > Jittered(RawDelay(baseMillis, k), j')
    ensures DelaysOf(checked, baseMillis, jitter, slept) && k < |slept| < U32_SIZE && slept[k] < slept[i]
  {
    jitter := (n: nat) => if n == i then j else j';
    slept := Delays(baseMillis, jitter, k + 1);
    DelaysAreDelays(checked, baseMillis, jitter, k + 1);
  }

  /** So they do for the largest base delay, from the first retry to the second. */
  lemma SaturatedMayShrink(checked: bool)
    ensures !NeverShrinks(checked, U64_MAX, 0, 1)
  {
    assert RawDelay(U64_MAX, 0) == U64_MAX;
    RawNext(U64_MAX, 0);
    DelaysDoNotShrink(checked, U64_MAX, 0, 1);
  }
}
