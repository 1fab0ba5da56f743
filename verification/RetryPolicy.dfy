/** Exponential backoff of the retry policy. */
module RetryPolicy {
  import opened Config

  function Pow2(n: nat): (r: nat)
    ensures r >= 1
  {
    if n == 0 then 1 else 2 * Pow2(n - 1)
  }

  function Initial(c: ReliabilityConfig): nat {
    if c.backoffInitialMs < 0 then 0 else c.backoffInitialMs as nat
  }

  function Ceiling(c: ReliabilityConfig): nat {
    if (c.backoffMaxMs as int) < Initial(c) then Initial(c) else c.backoffMaxMs as nat
  }

  /** Delay after doubling `delay` up to `steps` times, jumping to the ceiling once half of it is reached. */
  function Doubled(delay: nat, ceiling: nat, steps: nat): nat
    decreases steps
  {
    if steps == 0 then delay
    else if delay >= ceiling / 2 then ceiling
    else Doubled(delay * 2, ceiling, steps - 1)
  }

  /** Backoff delay after `failures` consecutive failures. */
  function Delay(c: ReliabilityConfig, failures: int): nat {
    if Initial(c) == 0 || failures <= 0 then 0 else Doubled(Initial(c), Ceiling(c), failures - 1)
  }

  /** The same delay without recursion. */
  function DelayClosed(c: ReliabilityConfig, failures: int): nat {
    var initial, ceiling := Initial(c), Ceiling(c);
    if initial == 0 || failures <= 0 then 0
    else if failures >= 2 && initial * Pow2(failures - 2) >= ceiling / 2 then ceiling
    else initial * Pow2(failures - 1)
  }

  lemma {:induction false} ScaledMonotone(i: nat, a: nat, b: nat)
    requires a <= b
    ensures i * Pow2(a) <= i * Pow2(b)
  {
    if a < b {
      ScaledMonotone(i, a, b - 1);
      ScaledStep(i, b - 1);
    }
  }

  lemma ScaledStep(i: nat, k: nat)
    ensures i * Pow2(k + 1) == 2 * (i * Pow2(k))
  {
    assert Pow2(k + 1) == 2 * Pow2(k);
  }

  lemma {:induction false} DoubledClosed(delay: nat, ceiling: nat, steps: nat)
    ensures Doubled(delay, ceiling, steps) ==
            if steps >= 1 && delay * Pow2(steps - 1) >= ceiling / 2 then ceiling else delay * Pow2(steps)
    decreases steps
  {
    if steps > 0 {
      if delay >= ceiling / 2 {
        ScaledMonotone(delay, 0, steps - 1);
      } else {
        DoubledClosed(delay * 2, ceiling, steps - 1);
        ShiftDoubling(delay, steps - 1);
        if steps > 1 {
          ShiftDoubling(delay, steps - 2);
        }
      }
    }
  }

  lemma ShiftDoubling(delay: nat, k: nat)
    ensures (delay * 2) * Pow2(k) == delay * Pow2(k + 1)
  {
    ScaledStep(delay, k);
    Associate(delay, Pow2(k));
  }

  lemma Associate(a: nat, b: nat)
    ensures (a * 2) * b == 2 * (a * b)
  {
  }

  lemma DelayIsClosed(c: ReliabilityConfig, failures: int)
    ensures Delay(c, failures) == DelayClosed(c, failures)
  {
    if Initial(c) > 0 && failures > 0 {
      DoubledClosed(Initial(c), Ceiling(c), failures - 1);
    }
  }

  /** The 32-bit doubling loop never overflows. */
  method DelayMs(c: ReliabilityConfig, failureCount: int) returns (delay: int32)
    ensures delay as int == Delay(c, failureCount)
  {
    var initial := if c.backoffInitialMs < 0 then 0 else c.backoffInitialMs;
    var maxDelay := if initial < c.backoffMaxMs then c.backoffMaxMs else initial;
    if initial == 0 || failureCount <= 0 {
      return 0;
    }
    delay := initial;
    var index := 1;
    while index < failureCount
      invariant 1 <= index <= failureCount
      invariant initial <= delay <= maxDelay
      invariant Doubled(delay as int, maxDelay as int, failureCount - index) == Delay(c, failureCount)
    {
      if delay >= maxDelay / 2 {
        return maxDelay;
      }
      delay := delay * 2;
      index := index + 1;
    }
    if maxDelay < delay {
      delay := maxDelay;
    }
  }

  lemma DelayInRange(c: ReliabilityConfig, failures: int)
    requires Initial(c) > 0 && failures >= 1
    ensures Initial(c) <= Delay(c, failures) <= Ceiling(c)
  {
    DelayIsClosed(c, failures);
    ScaledMonotone(Initial(c), 0, failures - 1);
    if failures >= 2 {
      ScaledStep(Initial(c), failures - 2);
    }
  }

  lemma DelayMonotone(c: ReliabilityConfig, m: int, n: int)
    requires m <= n
    ensures Delay(c, m) <= Delay(c, n)
  {
    if Initial(c) > 0 && m >= 1 {
      DelayIsClosed(c, m);
      DelayIsClosed(c, n);
      DelayInRange(c, m);
      DelayInRange(c, n);
      ScaledMonotone(Initial(c), m - 1, n - 1);
      if m >= 2 {
        ScaledMonotone(Initial(c), m - 2, n - 2);
      }
    }
  }

  function ExactDelay(c: ReliabilityConfig, failures: nat): nat
    requires failures >= 1
  {
    var doubled := Initial(c) * Pow2(failures - 1);
    if doubled < Ceiling(c) then doubled else Ceiling(c)
  }

  /** The loop's early exit rounds: it overshoots the capped power by one, exactly when the
      uncapped delay is one below the (then odd) ceiling. */
  lemma DelayVersusExact(c: ReliabilityConfig, failures: nat)
    requires Initial(c) > 0 && failures >= 1
    ensures ExactDelay(c, failures) <= Delay(c, failures) <= ExactDelay(c, failures) + 1
    ensures Delay(c, failures) != ExactDelay(c, failures) <==>
            failures >= 2 && Initial(c) * Pow2(failures - 1) == Ceiling(c) - 1
    ensures Delay(c, failures) != ExactDelay(c, failures) ==> Ceiling(c) % 2 == 1
  {
    DelayIsClosed(c, failures);
    if failures >= 2 {
      ScaledStep(Initial(c), failures - 2);
    }
  }

  /** An overshoot: from 1 ms towards a ceiling of 3 ms the second delay is 3 ms, not 2. */
  lemma DelayOvershoots()
    ensures var c := ReliabilityConfig(1, 1, 3, 1, 1); Delay(c, 2) == 3 && ExactDelay(c, 2) == 2
  {
    assert Pow2(1) == 2 * Pow2(0);
  }

  /** Total sleep of a retry loop that backs off after attempts 1..retries. */
  function TotalBackoff(c: ReliabilityConfig, retries: nat): nat {
    if retries == 0 then 0 else TotalBackoff(c, retries - 1) + Delay(c, retries)
  }

  lemma {:induction false} TotalBackoffBound(c: ReliabilityConfig, retries: nat)
    ensures TotalBackoff(c, retries) <= retries * Ceiling(c)
  {
    if retries > 0 {
      TotalBackoffBound(c, retries - 1);
      if Initial(c) > 0 {
        DelayInRange(c, retries);
      }
      assert retries * Ceiling(c) == (retries - 1) * Ceiling(c) + Ceiling(c);
    }
  }

  /** Without saturation the sleeps form a geometric series. */
  lemma {:induction false} TotalBackoffGeometric(c: ReliabilityConfig, retries: nat)
    requires retries >= 2 ==> Initial(c) * Pow2(retries - 2) < Ceiling(c) / 2
    ensures TotalBackoff(c, retries) == Initial(c) * (Pow2(retries) - 1)
  {
    if retries > 0 {
      if retries >= 3 {
        ScaledMonotone(Initial(c), retries - 3, retries - 2);
      }
      TotalBackoffGeometric(c, retries - 1);
      DelayIsClosed(c, retries);
      Geometric(Initial(c), Pow2(retries - 1));
      assert Delay(c, retries) == Initial(c) * Pow2(retries - 1);
    }
  }

  lemma Geometric(i: nat, p: nat)
    ensures i * (p - 1) + i * p == i * (2 * p - 1)
  {
  }
}
