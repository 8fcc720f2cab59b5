/** packages/worker/src/delivery/backoff.ts: the attempt budget and the retry delays. */
module Backoff {
  import opened Common

  /** MAX_DELIVERY_ATTEMPTS is any finite number that is at least one, not only an integer. */
  type Budget = m: real | m >= 1.0 witness 8.0

  predicate IsExhausted(attempts: nat, max: Budget) {
    attempts as real >= max
  }

  /** The least whole number of attempts that exhausts the budget. */
  function Limit(max: Budget): (n: nat)
    ensures n >= 1 && (n - 1) as real < max <= n as real
    ensures forall a: nat :: IsExhausted(a, max) <==> a >= n
  {
    var f := max.Floor;
    if f as real == max then f else f + 1
  }

  function Power2(n: nat): nat {
    if n == 0 then 1 else 2 * Power2(n - 1)
  }

  lemma ScaledBelow(x: real, n: real)
    requires 0.0 <= x < 1.0 && n > 0.0
    ensures 0.0 <= x * n < n
  {
    assert (1.0 - x) * n > 0.0;
  }

  /** Math.floor(Math.random() * (ceiling + 1)), where `random` is a real in [0, 1). */
  function Draw(ceiling: nat, random: real): (d: nat)
    requires 0.0 <= random < 1.0
    ensures d <= ceiling
  {
    var n := (ceiling + 1) as real;
    var x := random * n;
    ScaledBelow(random, n);
    assert x.Floor as real <= x;
    x.Floor
  }

  function CeilingMs(attempts: int): nat {
    Min(1000 * Power2(Max(attempts - 1, 0)), 60_000)
  }

  /** The ceiling is a second for the first attempt and doubles with each one, up to a minute. */
  lemma CeilingDoubles(attempts: int)
    ensures attempts <= 1 ==> CeilingMs(attempts) == 1000
    ensures attempts >= 1 ==>
              CeilingMs(attempts + 1) ==
              if 2 * CeilingMs(attempts) <= 60_000 then 2 * CeilingMs(attempts) else 60_000
  {
  }

  function BackoffDelayMs(attempts: int, random: real): (delay: nat)
    requires 0.0 <= random < 1.0
    ensures delay <= 60_000
    ensures attempts >= 1 ==> delay <= 1000 * Power2(attempts - 1)
  {
    Draw(CeilingMs(attempts), random)
  }

  lemma Fraction(x: real, n: real)
    requires 0.0 <= x < n
    ensures 0.0 <= x / n < 1.0
  {
    var q := x / n;
    assert q * n == x;
    assert q < 1.0 || (q - 1.0) * n >= 0.0;
  }

  /** Full jitter: a random number draws the delay, and exactly the delays up to the ceiling are drawn by some. */
  lemma FullJitter(attempts: int, delay: nat)
    ensures (exists random: real :: 0.0 <= random < 1.0 && BackoffDelayMs(attempts, random) == delay) <==>
            delay <= CeilingMs(attempts)
  {
    if delay <= CeilingMs(attempts) {
      var n := (CeilingMs(attempts) + 1) as real;
      var random := delay as real / n;
      assert random * n == delay as real;
      Fraction(delay as real, n);
      assert BackoffDelayMs(attempts, random) == delay;
    }
  }

  /** SQS accepts 1..43200 seconds; inside that range the message stays hidden at least the delay
      and less than a second longer. */
  function VisibilityTimeoutSeconds(delayMs: int): (s: int)
    ensures 1 <= s <= 43_200
    ensures 0 < delayMs <= 43_200_000 ==> delayMs <= 1000 * s < delayMs + 1000
    ensures delayMs <= 0 ==> s == 1
    ensures delayMs > 43_200_000 ==> s == 43_200
  {
    Min(Max(CeilSeconds(delayMs), 1), 43_200)
  }
}
