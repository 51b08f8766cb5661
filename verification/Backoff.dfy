/** The retry delays. Jitter is an input in [0, 1); numbers are exact. */
module Backoff {
  import opened Rows

  /** Math.round: half up. */
  function Round(x: real): int {
    (x + 0.5).Floor
  }

  function Pow2(n: nat): pos {
    if n == 0 then 1 else 2 * Pow2(n - 1)
  }

  function Max(a: int, b: int): int {
    if a < b then b else a
  }

  type Jitter = u: real | 0.0 <= u < 1.0 witness 0.0

  /** The undisturbed delay after the given number of failures. */
  function Base(delay: pos, attemptsMade: nat): pos {
    BaseIsPositive(delay, Pow2(Max(0, attemptsMade - 1)));
    delay * Pow2(Max(0, attemptsMade - 1))
  }

  lemma BaseIsPositive(a: pos, b: pos)
    ensures 0 < a * b
  {
  }

  /** Up to a fifth of the base. */
  function JitterOf(base: real, u: Jitter): real {
    u * base * 0.2
  }

  /** backoffStrategy with RETRY_BACKOFF_DELAY_MS = delay. */
  function BackoffStrategy(delay: pos, attemptsMade: nat, u: Jitter): int {
    var base := Base(delay, attemptsMade) as real;
    Round(base + JitterOf(base, u))
  }

  lemma JitterWithin(base: real, u: Jitter)
    requires 0.0 < base
    ensures 0.0 <= JitterOf(base, u) <= base * 0.2
  {
  }

  /** One delay lies between its base and a fifth more, up to rounding. */
  lemma DelayWithinBand(delay: pos, attemptsMade: nat, u: Jitter)
    ensures Base(delay, attemptsMade) <= BackoffStrategy(delay, attemptsMade, u)
    ensures BackoffStrategy(delay, attemptsMade, u) as real <= 1.2 * Base(delay, attemptsMade) as real + 0.5
  {
    var base := Base(delay, attemptsMade) as real;
    JitterWithin(base, u);
    FloorKeepsOrder(base + JitterOf(base, u) + 0.5, Base(delay, attemptsMade));
  }

  lemma FloorKeepsOrder(x: real, n: int)
    requires n as real <= x
    ensures n <= x.Floor && x.Floor as real <= x
  {
  }

  /** The base starts at the configured delay and doubles with every failure after the first. */
  lemma BaseIsExponential(delay: pos, failures: pos)
    ensures Base(delay, 0) == delay && Base(delay, 1) == delay
    ensures Base(delay, failures + 1) == 2 * Base(delay, failures)
  {
    BaseDoubles(delay, failures);
  }

  lemma JitterIsAFifth(base: real, u: real)
    ensures base + u * base * 0.2 == base * (1.0 + u / 5.0)
  {
  }

  /** The delay is its base and a fifth of it times the jitter, rounded to the nearest integer, halves up. */
  lemma DelayIsRounded(delay: pos, attemptsMade: nat, u: Jitter)
    ensures var exact := Base(delay, attemptsMade) as real * (1.0 + u / 5.0);
            exact - 0.5 < BackoffStrategy(delay, attemptsMade, u) as real <= exact + 0.5
  {
    JitterIsAFifth(Base(delay, attemptsMade) as real, u);
  }

  /** The jitter spreads the delays: every integer from the base to a fifth more is the delay for some jitter. */
  lemma EveryDelayOccurs(delay: pos, attemptsMade: nat, n: int) returns (u: Jitter)
    requires Base(delay, attemptsMade) <= n && n as real < 1.2 * Base(delay, attemptsMade) as real
    ensures BackoffStrategy(delay, attemptsMade, u) == n
  {
    var base := Base(delay, attemptsMade) as real;
    JitterFor(base, n as real);
    u := (n as real - base) * 5.0 / base;
    DelayIsRounded(delay, attemptsMade, u);
  }

  lemma JitterFor(base: real, x: real)
    requires 0.0 < base <= x < 1.2 * base
    ensures 0.0 <= (x - base) * 5.0 / base < 1.0
    ensures base * (1.0 + (x - base) * 5.0 / base / 5.0) == x
  {
  }

  lemma BaseDoubles(delay: pos, failures: pos)
    ensures Base(delay, failures + 1) == 2 * Base(delay, failures)
  {
  }

  /** Whatever the jitters and the rounding, each delay is longer than the one before. */
  lemma DelaysGrow(delay: pos, failures: pos, u: Jitter, v: Jitter)
    ensures BackoffStrategy(delay, failures, u) < BackoffStrategy(delay, failures + 1, v)
  {
    DelayWithinBand(delay, failures, u);
    DelayWithinBand(delay, failures + 1, v);
    BaseDoubles(delay, failures);
  }

  /** Over any failures the delays are strictly ordered. */
  lemma {:induction false} DelaysStrictlyIncrease(delay: pos, i: pos, j: pos, us: seq<Jitter>)
    requires i < j <= |us|
    ensures BackoffStrategy(delay, i, us[i - 1]) < BackoffStrategy(delay, j, us[j - 1])
    decreases j - i
  {
    DelaysGrow(delay, j - 1, us[j - 2], us[j - 1]);
    if i < j - 1 { DelaysStrictlyIncrease(delay, i, j - 1, us); }
  }

  /** The time spent waiting over the failures 1, 2, ..., |us|. */
  function TotalDelay(delay: pos, us: seq<Jitter>): int {
    if |us| == 0 then 0 else TotalDelay(delay, us[..|us| - 1]) + BackoffStrategy(delay, |us|, us[|us| - 1])
  }

  /** All retries together wait at least delay * (2^k - 1), and at most a fifth more and half a unit each. */
  lemma {:induction false} TotalDelayWithinBand(delay: pos, us: seq<Jitter>)
    ensures delay * (Pow2(|us|) - 1) <= TotalDelay(delay, us)
    ensures TotalDelay(delay, us) as real <= 1.2 * (delay * (Pow2(|us|) - 1)) as real + |us| as real / 2.0
  {
    var k := |us|;
    if k > 0 {
      TotalDelayWithinBand(delay, us[..k - 1]);
      DelayWithinBand(delay, k, us[k - 1]);
      assert Base(delay, k) == delay * Pow2(k - 1);
      SumDoubles(delay, Pow2(k - 1));
    }
  }

  lemma SumDoubles(delay: pos, power: pos)
    ensures delay * (power - 1) + delay * power == delay * (2 * power - 1)
  {
  }
}
