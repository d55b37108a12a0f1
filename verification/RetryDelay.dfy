/** Waiting times between retries (src/proxy/handlers.rs, `calculate_retry_delay`). */
module RetryDelay {

  const NANOS_PER_SECOND: nat := 1_000_000_000
  const U32_MAX: nat := 0xFFFF_FFFF

  function Pow2(n: nat): nat {
    if n == 0 then 1 else 2 * Pow2(n - 1)
  }

  /** A signed 64-bit result of wrapping arithmetic. */
  function Wrap64(x: int): int {
    (x + 0x8000_0000_0000_0000) % 0x1_0000_0000_0000_0000 - 0x8000_0000_0000_0000
  }

  /** `f64::round`: to the nearest integer, halves away from zero. */
  function Round(x: real): int {
    if x >= 0.0 then (x + 0.5).Floor else -((-x + 0.5).Floor)
  }

  /** The factor drawn from the sub-second part of the clock. */
  function RandomFactor(nanos: nat): real {
    (nanos as real / U32_MAX as real) * 2.0 - 1.0
  }

  datatype Policy = Policy(baseMs: int, strategy: string, maxMs: int)

  function Backoff(p: Policy, attempt: nat): int
    requires attempt > 0
  {
    Wrap64(p.baseMs * Wrap64(Pow2(attempt - 1)))
  }

  function Capped(p: Policy, attempt: nat): int
    requires attempt > 0
  {
    var backoff := Backoff(p, attempt);
    if p.maxMs > 0 && p.maxMs < backoff then p.maxMs else backoff
  }

  function Swing(capped: int, nanos: nat): real {
    capped as real * 0.25 * RandomFactor(nanos)
  }

  function Jitter(capped: int, nanos: nat): int {
    Round(Swing(capped, nanos))
  }

  function RetryDelay(p: Policy, attempt: nat, nanos: nat): int
    requires attempt > 0
  {
    if p.baseMs <= 0 then 0
    else
      var delay :=
        if p.strategy == "exponential" then Capped(p, attempt)
        else if p.strategy == "exponential_jitter" then
          Capped(p, attempt) + Jitter(Capped(p, attempt), nanos)
        else p.baseMs;
      if delay < 0 then 0 else delay
  }

  /** Halves are rounded away from zero, on both sides. */
  lemma HalvesRoundAway(n: nat)
    ensures Round(n as real + 0.5) == n + 1 && Round(-(n as real) - 0.5) == -(n + 1)
  {
    assert (n as real + 1.0).Floor == n + 1;
  }

  /** Every other strategy waits for the base, and no strategy waits without a positive base. */
  lemma OtherStrategiesAreFixed(p: Policy, attempt: nat, nanos: nat)
    requires attempt > 0
    ensures p.baseMs <= 0 ==> RetryDelay(p, attempt, nanos) == 0
    ensures p.baseMs > 0 && p.strategy !in ["exponential", "exponential_jitter"] ==>
            RetryDelay(p, attempt, nanos) == p.baseMs
  {
  }

  // ---------------------------------------------------------------- exponential backoff

  ghost predicate IsI64(x: int) {
    -0x8000_0000_0000_0000 <= x < 0x8000_0000_0000_0000
  }

  /** The exact backoff. */
  function Exact(p: Policy, attempt: nat): int
    requires attempt > 0
  {
    p.baseMs * Pow2(attempt - 1)
  }

  ghost predicate Fits(p: Policy, attempt: nat)
    requires attempt > 0
  {
    Exact(p, attempt) < 0x8000_0000_0000_0000
  }

  /** The backoff is the exact one, reduced to 64 bits. */
  lemma BackoffWraps(p: Policy, attempt: nat)
    requires attempt > 0
    ensures Backoff(p, attempt) == Wrap64(Exact(p, attempt))
  {
    var power := Pow2(attempt - 1);
    var k := WrapIsCongruent(power);
    Distribute(p.baseMs, power, k, 0x1_0000_0000_0000_0000);
    WrapIgnoresMultiples(p.baseMs * power, p.baseMs * k);
  }

  lemma WrapIsCongruent(x: int) returns (k: int)
    ensures Wrap64(x) == x + k * 0x1_0000_0000_0000_0000
  {
    k := -((x + 0x8000_0000_0000_0000) / 0x1_0000_0000_0000_0000);
  }

  lemma Distribute(a: int, b: int, k: int, m: int)
    ensures a * (b + k * m) == a * b + (a * k) * m
  {
  }

  lemma WrapIgnoresMultiples(x: int, k: int)
    ensures Wrap64(x + k * 0x1_0000_0000_0000_0000) == Wrap64(x)
  {
  }

  /** Neither the power nor the product overflows if and only if base * 2^(attempt-1) stays below 2^63. */
  lemma BackoffIsExact(p: Policy, attempt: nat)
    requires attempt > 0 && p.baseMs > 0
    ensures Backoff(p, attempt) == Exact(p, attempt) <==> Fits(p, attempt)
    ensures Fits(p, attempt) ==> Backoff(p, attempt) > 0
  {
    BackoffWraps(p, attempt);
    ExactIsPositive(p, attempt);
  }

  lemma ExactIsPositive(p: Policy, attempt: nat)
    requires attempt > 0 && p.baseMs > 0
    ensures Exact(p, attempt) >= p.baseMs > 0
  {
    PowerIsPositive(attempt - 1);
    ProductsGrow(p.baseMs, 1, Pow2(attempt - 1));
  }

  lemma ProductsGrow(k: nat, a: int, b: int)
    requires a <= b
    ensures k * a <= k * b && k * a == a * k && k * b == b * k
  {
    assert k * (b - a) >= 0;
  }

  lemma {:induction false} PowerIsPositive(n: nat)
    ensures Pow2(n) >= 1
  {
    if n == 0 {
    } else {
      PowerIsPositive(n - 1);
    }
  }

  lemma {:induction false} PowersGrow(m: nat, n: nat)
    requires m <= n
    ensures Pow2(m) <= Pow2(n)
    decreases n
  {
    if m == n {
    } else {
      PowersGrow(m, n - 1);
      PowerIsPositive(n - 1);
    }
  }

  lemma FitsEarlier(p: Policy, early: nat, late: nat)
    requires 0 < early <= late && p.baseMs > 0
    ensures Exact(p, early) <= Exact(p, late)
    ensures Fits(p, late) ==> Fits(p, early)
  {
    PowersGrow(early - 1, late - 1);
    ProductsGrow(p.baseMs, Pow2(early - 1), Pow2(late - 1));
  }

  /** What the exponential delay is meant to be. */
  function Promised(p: Policy, attempt: nat): int
    requires attempt > 0
  {
    if p.maxMs > 0 && p.maxMs < Exact(p, attempt) then p.maxMs else Exact(p, attempt)
  }

  /** The exponential delay is min(base * 2^(attempt-1), cap) exactly when the product does not overflow, or
      there is a cap and what 64 bits keep of the product still reaches it. */
  lemma ExponentialDelay(p: Policy, attempt: nat, nanos: nat)
    requires p.strategy == "exponential" && attempt > 0 && p.baseMs > 0 && IsI64(p.maxMs)
    ensures var kept := Exact(p, attempt) % 0x1_0000_0000_0000_0000;
            RetryDelay(p, attempt, nanos) == Promised(p, attempt) <==>
            Fits(p, attempt) || (p.maxMs > 0 && p.maxMs <= kept < 0x8000_0000_0000_0000)
  {
    BackoffWraps(p, attempt);
    ExactIsPositive(p, attempt);
    WrapOfPositive(Exact(p, attempt));
  }

  lemma WrapOfPositive(x: nat)
    ensures var kept := x % 0x1_0000_0000_0000_0000;
            Wrap64(x) == if kept < 0x8000_0000_0000_0000 then kept else kept - 0x1_0000_0000_0000_0000
  {
  }

  lemma ExactDoubles(p: Policy, attempt: nat)
    requires attempt > 0
    ensures Exact(p, attempt + 1) == 2 * Exact(p, attempt)
  {
    Twice(p.baseMs, Pow2(attempt - 1));
  }

  lemma Twice(base: int, power: int)
    ensures base * (2 * power) == 2 * (base * power)
  {
  }

  /** The first backoff that overflows is negative, so that the delay drops to nothing. */
  lemma FirstOverflow(p: Policy, attempt: nat, nanos: nat)
    requires p.strategy == "exponential" && attempt > 0 && p.baseMs > 0
    requires Fits(p, attempt) && !Fits(p, attempt + 1)
    ensures RetryDelay(p, attempt, nanos) > 0 && RetryDelay(p, attempt + 1, nanos) == 0
  {
    ExactDoubles(p, attempt);
    ExactIsPositive(p, attempt);
    BackoffIsExact(p, attempt);
    BackoffWraps(p, attempt + 1);
    DoubledTooFar(Exact(p, attempt));
  }

  lemma DoubledTooFar(x: nat)
    requires x < 0x8000_0000_0000_0000 <= 2 * x
    ensures Wrap64(2 * x) < 0
  {
  }

  lemma {:induction false} SomeFirstOverflow(p: Policy, late: nat) returns (attempt: nat)
    requires late > 0 && p.baseMs > 0 && IsI64(p.baseMs) && !Fits(p, late)
    ensures 0 < attempt < late && Fits(p, attempt) && !Fits(p, attempt + 1)
  {
    assert Exact(p, 1) == p.baseMs;
    if late > 1 && !Fits(p, late - 1) {
      attempt := SomeFirstOverflow(p, late - 1);
    } else {
      attempt := late - 1;
    }
  }

  ghost predicate Growing(p: Policy, late: nat, nanos: nat) {
    forall a, b {:trigger RetryDelay(p, a, nanos), RetryDelay(p, b, nanos)} ::
      0 < a <= b <= late ==> RetryDelay(p, a, nanos) <= RetryDelay(p, b, nanos)
  }

  /** The exponential delays of a loop never shrink if and only if the last one does not overflow, whatever
      the cap. */
  lemma DelaysGrowIff(p: Policy, late: nat, nanos: nat)
    requires p.strategy == "exponential" && late > 0 && p.baseMs > 0 && IsI64(p.baseMs)
    ensures Growing(p, late, nanos) <==> Fits(p, late)
  {
    if Fits(p, late) {
      forall a, b | 0 < a <= b <= late ensures RetryDelay(p, a, nanos) <= RetryDelay(p, b, nanos) {
        FitsEarlier(p, b, late);
        FitsEarlier(p, a, b);
        BackoffIsExact(p, a);
        BackoffIsExact(p, b);
      }
    } else {
      var a := SomeFirstOverflow(p, late);
      FirstOverflow(p, a, nanos);
    }
  }

  // ---------------------------------------------------------------- jitter

  lemma SwingIsSmall(capped: int, nanos: nat)
    requires nanos < NANOS_PER_SECOND
    ensures capped >= 0 ==> -0.25 * capped as real <= Swing(capped, nanos) <= -0.125 * capped as real
    ensures capped <= 0 ==> -0.125 * capped as real <= Swing(capped, nanos) <= -0.25 * capped as real
  {
    var c, f := capped as real, RandomFactor(nanos);
    var share := nanos as real / U32_MAX as real;
    assert 0.0 <= share <= 0.25 by {
      assert share * U32_MAX as real == nanos as real;
    }
    assert -1.0 <= f <= -0.5;
    if capped >= 0 {
      ProductOfSigns(c, f + 1.0);
      ProductOfSigns(c, -0.5 - f);
    } else {
      ProductOfSigns(-c, f + 1.0);
      ProductOfSigns(-c, -0.5 - f);
      Negated(c, f + 1.0);
      Negated(c, -0.5 - f);
    }
    Shifted(c, f, 1.0);
    Shifted(c, -f, -0.5);
    Negated(c, f);
  }

  lemma ProductOfSigns(x: real, y: real)
    requires x >= 0.0 && y >= 0.0
    ensures x * y >= 0.0
  {
  }

  lemma Negated(x: real, y: real)
    ensures (-x) * y == -(x * y) && x * (-y) == -(x * y)
  {
  }

  lemma Shifted(x: real, y: real, z: real)
    ensures x * (y + z) == x * y + x * z
  {
  }

  /** The jitter only ever shortens the wait: because the sub-second nanoseconds stay below 10^9 while
      the divisor is 2^32 - 1, the delay lies between three quarters and seven eighths of the capped
      backoff (up to half a millisecond of rounding), and in particular never exceeds it. A backoff that
      has wrapped to a negative number, or a base that is not positive, means no delay. */
  lemma JitterShortens(p: Policy, attempt: nat, nanos: nat)
    requires p.strategy == "exponential_jitter" && attempt > 0 && nanos < NANOS_PER_SECOND
    ensures var capped, delay := Capped(p, attempt), RetryDelay(p, attempt, nanos);
            if p.baseMs <= 0 || capped <= 0 then delay == 0
            else 3 * capped - 2 <= 4 * delay && 8 * delay <= 7 * capped + 4 && 0 <= delay <= capped
  {
    var capped := Capped(p, attempt);
    if capped > 0 {
      JitterIsNegative(capped, nanos);
    } else {
      JitterOfNegative(capped, nanos);
    }
  }

  lemma JitterOfNegative(capped: int, nanos: nat)
    requires capped <= 0 && nanos < NANOS_PER_SECOND
    ensures capped + Jitter(capped, nanos) <= 0
  {
    SwingIsSmall(capped, nanos);
    RoundIsClose(Swing(capped, nanos));
    var j := Jitter(capped, nanos);
    assert j as real <= -0.25 * capped as real + 0.5;
    assert (4 * j) as real <= (-capped + 2) as real;
  }

  lemma JitterIsNegative(capped: int, nanos: nat)
    requires capped > 0 && nanos < NANOS_PER_SECOND
    ensures -capped - 2 <= 4 * Jitter(capped, nanos) && 8 * Jitter(capped, nanos) <= -capped + 4
    ensures -capped <= Jitter(capped, nanos) <= 0
  {
    SwingIsSmall(capped, nanos);
    RoundedJitter(capped, Swing(capped, nanos));
  }

  lemma RoundIsClose(x: real)
    ensures (Round(x) as real) - 0.5 <= x <= (Round(x) as real) + 0.5
    ensures x <= 0.0 ==> Round(x) <= 0
  {
  }

  lemma RoundedJitter(capped: int, x: real)
    requires capped > 0 && -0.25 * capped as real <= x <= -0.125 * capped as real
    ensures -capped - 2 <= 4 * Round(x) && 8 * Round(x) <= -capped + 4 && Round(x) <= 0 && -capped <= Round(x)
  {
    RoundIsClose(x);
    var j := Round(x);
    assert -(capped as real) - 2.0 <= 4.0 * j as real;
    assert 8.0 * j as real <= -(capped as real) + 4.0;
    assert (4 * j) as real == 4.0 * j as real && (8 * j) as real == 8.0 * j as real;
  }

  // ---------------------------------------------------------------- a whole retry loop

  /** The time spent waiting when `attempts` attempts are made; the first one does not wait. */
  function TotalWait(p: Policy, attempts: nat, nanos: nat -> nat): int {
    if attempts <= 1 then 0
    else TotalWait(p, attempts - 1, nanos) + RetryDelay(p, attempts - 1, nanos(attempts - 1))
  }

  /** The uncapped exponential waits of a loop with n retries add up to base * (2^n - 1) exactly when the last
      one does not overflow; otherwise the loop waits for less. */
  lemma {:induction false} ExponentialWaitsAddUp(p: Policy, retries: nat, nanos: nat -> nat)
    requires p.strategy == "exponential" && p.maxMs <= 0 && p.baseMs > 0
    ensures var total, meant := TotalWait(p, retries + 1, nanos), p.baseMs * (Pow2(retries) - 1);
            total <= meant && (total == meant <==> retries == 0 || Fits(p, retries))
  {
    if retries == 0 {
    } else {
      ExponentialWaitsAddUp(p, retries - 1, nanos);
      OneWait(p, retries, nanos(retries));
      if retries > 1 {
        FitsEarlier(p, retries - 1, retries);
      }
      Doubling(p.baseMs, Pow2(retries - 1));
    }
  }

  lemma OneWait(p: Policy, attempt: nat, nanos: nat)
    requires p.strategy == "exponential" && p.maxMs <= 0 && p.baseMs > 0 && attempt > 0
    ensures var delay := RetryDelay(p, attempt, nanos);
            delay <= Exact(p, attempt) && (delay == Exact(p, attempt) <==> Fits(p, attempt))
  {
    BackoffWraps(p, attempt);
    ExactIsPositive(p, attempt);
    WrapOfPositive(Exact(p, attempt));
  }

  lemma Doubling(base: int, power: int)
    ensures base * (power - 1) + base * power == base * (2 * power - 1)
  {
  }
}
