/** The reconnect delay: doubling, jittered, capped. Delays are in nanoseconds, as Go's time.Duration has them. */
module Backoff {
  import opened Numbers

  const SECOND: nat := 1_000_000_000
  const MILLISECOND: nat := 1_000_000
  const JITTER: nat := 1000

  /** The configured maximum, made usable. */
  function MaxDelay(configured: int): nat {
    if configured == 0 then 64 * SECOND else if configured < SECOND then SECOND else configured
  }

  /** The delay after one more failure, for a jitter of so many milliseconds. */
  function NextDelay(delay: nat, jitter: nat, max: nat): nat {
    var base := if delay == 0 then SECOND else 2 * (delay - delay % SECOND);
    var jittered := base + jitter * MILLISECOND;
    if jittered > max then max else jittered
  }

  function AfterFailures(delay: nat, jitters: seq<nat>, max: nat): nat
    decreases |jitters|
  {
    if jitters == [] then delay else AfterFailures(NextDelay(delay, jitters[0], max), jitters[1..], max)
  }

  lemma {:induction false} AfterFailuresSnoc(delay: nat, jitters: seq<nat>, jitter: nat, max: nat)
    ensures AfterFailures(delay, jitters + [jitter], max) == NextDelay(AfterFailures(delay, jitters, max), jitter, max)
    decreases |jitters|
  {
    if jitters == [] {
      assert AfterFailures(NextDelay(delay, jitter, max), [], max) == NextDelay(delay, jitter, max);
    } else {
      assert (jitters + [jitter])[1..] == jitters[1..] + [jitter];
      AfterFailuresSnoc(NextDelay(delay, jitters[0], max), jitters[1..], jitter, max);
    }
  }

  function Pow2(e: nat): (p: nat)
    ensures p >= 1
  {
    if e == 0 then 1 else 2 * Pow2(e - 1)
  }

  /** Between 2^e seconds and 999 milliseconds more, both cut off at the maximum. */
  predicate Within(delay: nat, e: nat, max: nat) {
    Min(Pow2(e) * SECOND, max) <= delay <= Min(Pow2(e) * SECOND + (JITTER - 1) * MILLISECOND, max)
  }

  lemma WholeSeconds(delay: nat, p: nat)
    requires p * 1_000_000_000 <= delay < p * 1_000_000_000 + 1_000_000_000
    ensures delay - delay % 1_000_000_000 == p * 1_000_000_000
  {
  }

  lemma Doubles(delay: nat, e: nat, jitter: nat, max: nat)
    requires SECOND <= max && jitter < JITTER && Within(delay, e, max)
    ensures Within(NextDelay(delay, jitter, max), e + 1, max)
  {
    var p := Pow2(e);
    assert Pow2(e + 1) == 2 * p;
    if p * 1_000_000_000 <= max {
      WholeSeconds(delay, p);
      assert NextDelay(delay, jitter, max) == Min(2 * p * 1_000_000_000 + jitter * MILLISECOND, max);
    } else {
      CapAbsorbs(jitter, max);
    }
  }

  /** Once at the maximum, always at the maximum, whether or not that is a whole number of seconds. */
  lemma CapAbsorbs(jitter: nat, max: nat)
    requires SECOND <= max
    ensures NextDelay(max, jitter, max) == max
  {
    var q := max / SECOND;
    assert max - max % SECOND == q * SECOND;
  }

  lemma {:induction false} FailuresDouble(delay: nat, e: nat, jitters: seq<nat>, max: nat)
    requires SECOND <= max && Within(delay, e, max)
    requires forall i :: 0 <= i < |jitters| ==> jitters[i] < JITTER
    ensures Within(AfterFailures(delay, jitters, max), e + |jitters|, max)
    decreases |jitters|
  {
    if jitters != [] {
      Doubles(delay, e, jitters[0], max);
      FailuresDouble(NextDelay(delay, jitters[0], max), e + 1, jitters[1..], max);
    }
  }

  /** 2^e seconds and so many milliseconds, cut off at the maximum. */
  function Capped(e: nat, jitter: nat, max: nat): nat {
    var delay := Pow2(e) * 1_000_000_000 + jitter * 1_000_000;
    if delay > max then max else delay
  }

  lemma DoublesExactly(e: nat, jitter: nat, next: nat, max: nat)
    requires SECOND <= max && jitter < JITTER && next < JITTER
    ensures NextDelay(Capped(e, jitter, max), next, max) == Capped(e + 1, next, max)
  {
    var p := Pow2(e);
    assert Pow2(e + 1) == 2 * p;
    if p * 1_000_000_000 + jitter * 1_000_000 <= max {
      WholeSeconds(p * 1_000_000_000 + jitter * 1_000_000, p);
    } else {
      CapAbsorbs(next, max);
    }
  }

  lemma {:induction false} FailuresExactly(e: nat, jitter: nat, jitters: seq<nat>, max: nat)
    requires SECOND <= max && jitter < JITTER
    requires forall i :: 0 <= i < |jitters| ==> jitters[i] < JITTER
    ensures AfterFailures(Capped(e, jitter, max), jitters, max)
         == Capped(e + |jitters|, if jitters == [] then jitter else jitters[|jitters| - 1], max)
    decreases |jitters|
  {
    if jitters != [] {
      DoublesExactly(e, jitter, jitters[0], max);
      FailuresExactly(e + 1, jitters[0], jitters[1..], max);
    }
  }

  /** The maximum in force: 64 seconds unless one is configured, and that as configured unless it is below a second. */
  lemma MaximumIsTheConfigured(configured: int)
    ensures configured == 0 ==> MaxDelay(configured) == 64_000_000_000
    ensures configured >= 1_000_000_000 ==> MaxDelay(configured) == configured
    ensures configured != 0 && configured < 1_000_000_000 ==> MaxDelay(configured) == 1_000_000_000
  {
  }

  /** After k >= 1 failures from the start the delay is exactly 2^(k-1) seconds and the last jitter; after k >= 1
      failures since a connection, 2^k seconds and the last jitter; either way cut off at the maximum. Jitter never
      adds up. */
  lemma BackoffClosedForm(jitters: seq<nat>, configured: int)
    requires forall i :: 0 <= i < |jitters| ==> jitters[i] < JITTER
    ensures jitters != [] ==>
      AfterFailures(0, jitters, MaxDelay(configured))
        == Capped(|jitters| - 1, jitters[|jitters| - 1], MaxDelay(configured))
    ensures AfterFailures(SECOND, jitters, MaxDelay(configured))
         == Capped(|jitters|, if jitters == [] then 0 else jitters[|jitters| - 1], MaxDelay(configured))
    ensures jitters != []
        ==> Within(AfterFailures(0, jitters, MaxDelay(configured)), |jitters| - 1, MaxDelay(configured))
    ensures Within(AfterFailures(SECOND, jitters, MaxDelay(configured)), |jitters|, MaxDelay(configured))
  {
    var max := MaxDelay(configured);
    assert Capped(0, 0, max) == SECOND by {
      assert Pow2(0) == 1;
    }
    FailuresExactly(0, 0, jitters, max);
    FailuresDouble(SECOND, 0, jitters, max);
    if jitters != [] {
      assert NextDelay(0, jitters[0], max) == Capped(0, jitters[0], max) by {
        assert Pow2(0) == 1;
      }
      FailuresExactly(0, jitters[0], jitters[1..], max);
      FailuresDouble(NextDelay(0, jitters[0], max), 0, jitters[1..], max);
    }
  }

  // ---- 64-bit arithmetic

  const INT64_MAX: int := 0x7FFF_FFFF_FFFF_FFFF
  const TWO64: nat := 0x1_0000_0000_0000_0000

  /** A sum or double of two int64 values, wrapped around. */
  function Wrap(x: int): int
    requires -INT64_MAX - 1 <= x <= 2 * INT64_MAX + 1
  {
    if x > INT64_MAX then x - TWO64 else x
  }

  function NextDelay64(delay: int, jitter: nat, max: int): int
    requires 0 <= delay <= max <= INT64_MAX && jitter < JITTER
  {
    var base := if delay == 0 then SECOND else Wrap(2 * (delay - delay % SECOND));
    var jittered := Wrap(base + jitter * MILLISECOND);
    if jittered > max then max else jittered
  }

  predicate Agrees(delay: nat, jitter: nat, max: nat)
    requires delay <= max <= INT64_MAX && jitter < JITTER
  {
    NextDelay64(delay, jitter, max) == NextDelay(delay, jitter, max)
  }

  /** In 64 bits the delay never overflows exactly when twice the maximum in whole seconds, plus the largest jitter,
      fits. */
  lemma NoOverflowIff(max: nat)
    requires SECOND <= max <= INT64_MAX
    ensures (forall delay: nat, jitter: nat :: delay <= max && jitter < JITTER ==> Agrees(delay, jitter, max))
       <==> 2 * (max - max % SECOND) + (JITTER - 1) * MILLISECOND <= INT64_MAX
  {
    if 2 * (max - max % SECOND) + (JITTER - 1) * MILLISECOND <= INT64_MAX {
      forall delay: nat, jitter: nat | delay <= max && jitter < JITTER
        ensures Agrees(delay, jitter, max)
      {
        assert delay - delay % SECOND == (delay / SECOND) * SECOND;
        assert max - max % SECOND == (max / SECOND) * SECOND;
        assert delay / SECOND <= max / SECOND;
      }
    } else {
      assert !Agrees(max, JITTER - 1, max);
    }
  }
}
