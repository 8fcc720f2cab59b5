/** packages/shared/src/rate-limit.ts: the token bucket, as the pure function and as the Redis script
    with its key expiry. Times are whole milliseconds; tokens are exact reals. */
module RateLimit {
  import Common
  import opened Store

  datatype Config = Config(capacity: real, refillPerSecond: real)
  datatype Bucket = Bucket(tokens: real, lastRefillAt: int)
  datatype Decision = Decision(allowed: bool, tokens: real, retryAfterMs: int)

  predicate Valid(c: Config) {
    c.capacity > 0.0 && c.refillPerSecond > 0.0
  }

  /** normalizeRateLimitConfig: a capacity or rate that is not positive is an error. */
  function Normalize(capacity: Option<real>, refillPerSecond: Option<real>): (c: Option<Config>)
    ensures c.Some? ==> Valid(c.value)
    ensures c.Some? ==> (capacity.Some? ==> c.value.capacity == capacity.value) &&
                        (capacity.None? ==> c.value.capacity == 10.0)
    ensures c.Some? ==> (refillPerSecond.Some? ==> c.value.refillPerSecond == refillPerSecond.value) &&
                        (refillPerSecond.None? ==> c.value.refillPerSecond == 10.0)
    ensures c.None? <==>
              (capacity.Some? && capacity.value <= 0.0) || (refillPerSecond.Some? && refillPerSecond.value <= 0.0)
  {
    var c := Config(if capacity.Some? then capacity.value else 10.0,
                    if refillPerSecond.Some? then refillPerSecond.value else 10.0);
    if c.capacity <= 0.0 || c.refillPerSecond <= 0.0 then None else Some(c)
  }

  function Min(a: real, b: real): real { if a < b then a else b }

  function Ceil(x: real): (n: int)
    ensures x <= n as real < x + 1.0
  {
    -((-x).Floor)
  }

  /** The refill of `ms` milliseconds. */
  function Refill(c: Config, ms: int): real {
    (ms as real) * c.refillPerSecond / 1000.0
  }

  function Refilled(c: Config, b: Bucket, now: int): real {
    Min(c.capacity, b.tokens + Refill(c, Common.Max(0, now - b.lastRefillAt)))
  }

  function Decide(c: Config, refilled: real): Decision
    requires Valid(c)
  {
    if refilled < 1.0
    then Decision(false, refilled, Ceil((1.0 - refilled) * 1000.0 / c.refillPerSecond))
    else Decision(true, refilled - 1.0, 0)
  }

  /** consumeToken: the decision and the bucket to keep. */
  function ConsumeToken(c: Config, b: Bucket, now: int): (Decision, Bucket)
    requires Valid(c)
  {
    var d := Decide(c, Refilled(c, b, now));
    (d, Bucket(d.tokens, now))
  }

  /** A call is allowed if and only if a whole token is there once the bucket has refilled; it takes that token and
      waits for nothing, and a refused call leaves the tokens where they are. */
  lemma AllowedIffWhole(c: Config, b: Bucket, now: int)
    requires Valid(c) && Filled(c, b)
    ensures var (d, next) := ConsumeToken(c, b, now);
            var elapsed := if now < b.lastRefillAt then 0 else now - b.lastRefillAt;
            var tokens := b.tokens + elapsed as real * c.refillPerSecond / 1000.0;
            && (d.allowed <==> tokens >= 1.0 && c.capacity >= 1.0)
            && (d.allowed ==> d.retryAfterMs == 0) && (!d.allowed ==> d.retryAfterMs >= 1)
            && next.lastRefillAt == now && next.tokens == d.tokens
            && next.tokens + (if d.allowed then 1.0 else 0.0) == if tokens < c.capacity then tokens else c.capacity
  {
    RefillReaches(c, 0, 1.0 - Refilled(c, b, now));
    RefillSign(c, 0);
  }

  // ---- arithmetic of the refill ----

  lemma RefillSign(c: Config, ms: int)
    requires Valid(c)
    ensures ms >= 0 ==> Refill(c, ms) >= 0.0
    ensures ms == 0 ==> Refill(c, ms) == 0.0
  {
  }

  /** Waiting x milliseconds refills at least y tokens exactly when x is at least their time. */
  lemma RefillReaches(c: Config, ms: int, y: real)
    requires Valid(c)
    ensures Refill(c, ms) >= y <==> ms as real >= y * 1000.0 / c.refillPerSecond
  {
    var x := ms as real;
    var r := c.refillPerSecond;
    var q := y * 1000.0 / r;
    assert q * r == y * 1000.0;
    if x >= q { assert (x - q) * r >= 0.0; } else { assert (q - x) * r > 0.0; }
  }

  lemma RefillAdds(c: Config, a: int, b: int)
    ensures Refill(c, a + b) == Refill(c, a) + Refill(c, b)
  {
  }

  ghost predicate Filled(c: Config, b: Bucket) {
    0.0 <= b.tokens <= c.capacity
  }

  lemma StaysFilled(c: Config, b: Bucket, now: int)
    requires Valid(c) && Filled(c, b)
    ensures Filled(c, ConsumeToken(c, b, now).1)
    ensures ConsumeToken(c, b, now).0.tokens == ConsumeToken(c, b, now).1.tokens
  {
    RefillSign(c, Common.Max(0, now - b.lastRefillAt));
  }

  // ---- the burst bound ----

  /** How far the clock moves forward over the calls, starting at `last`; going back counts nothing. */
  function Forward(last: int, times: seq<int>): nat
    decreases times
  {
    if times == [] then 0 else Common.Max(0, times[0] - last) + Forward(times[0], times[1..])
  }

  function Allowed(c: Config, b: Bucket, times: seq<int>): nat
    requires Valid(c)
    decreases times
  {
    if times == [] then 0
    else
      var (d, next) := ConsumeToken(c, b, times[0]);
      (if d.allowed then 1 else 0) + Allowed(c, next, times[1..])
  }

  lemma {:induction false} BurstRefill(c: Config, b: Bucket, times: seq<int>)
    requires Valid(c) && Filled(c, b)
    ensures Allowed(c, b, times) as real <= b.tokens + Refill(c, Forward(b.lastRefillAt, times))
    decreases times
  {
    if times == [] {
      RefillSign(c, 0);
    } else {
      var (d, next) := ConsumeToken(c, b, times[0]);
      StaysFilled(c, b, times[0]);
      BurstRefill(c, next, times[1..]);
      RefillAdds(c, Common.Max(0, times[0] - b.lastRefillAt), Forward(times[0], times[1..]));
    }
  }

  /** In any part of a run, on any clock, at most capacity + rate * forward movement calls are allowed. */
  lemma BurstBound(c: Config, b: Bucket, times: seq<int>)
    requires Valid(c) && Filled(c, b)
    ensures Allowed(c, b, times) as real <=
            b.tokens + Forward(b.lastRefillAt, times) as real * c.refillPerSecond / 1000.0
    ensures Allowed(c, b, times) as real <=
            c.capacity + Forward(b.lastRefillAt, times) as real * c.refillPerSecond / 1000.0
  {
    hide Allowed, Forward;
    BurstRefill(c, b, times);
  }

  /** Calls without the clock moving forward take the whole tokens that are there, one each. */
  lemma {:induction false} WholeTokensAreTaken(c: Config, b: Bucket, times: seq<int>)
    requires Valid(c) && Filled(c, b) && forall i | 0 <= i < |times| :: times[i] == b.lastRefillAt
    ensures Allowed(c, b, times) == if |times| <= b.tokens.Floor then |times| else b.tokens.Floor
    decreases times
  {
    if times != [] {
      RefillSign(c, 0);
      StaysFilled(c, b, times[0]);
      WholeTokensAreTaken(c, ConsumeToken(c, b, times[0]).1, times[1..]);
    }
  }

  /** A bucket that has waited for its missing tokens is full again, and no fuller. */
  lemma RefillsToCapacity(c: Config, b: Bucket, ms: nat)
    requires Valid(c) && Filled(c, b)
    ensures var tokens := Refilled(c, b, b.lastRefillAt + ms);
            && tokens <= c.capacity
            && (tokens == c.capacity <==> ms as real >= (c.capacity - b.tokens) * 1000.0 / c.refillPerSecond)
            && (tokens < c.capacity ==> tokens == b.tokens + ms as real * c.refillPerSecond / 1000.0)
  {
    RefillReaches(c, ms, c.capacity - b.tokens);
  }

  // ---- the advertised wait ----

  /** A call `wait` milliseconds after the one at `now` is allowed. */
  predicate AllowedAfter(c: Config, b: Bucket, now: int, wait: nat)
    requires Valid(c)
  {
    ConsumeToken(c, ConsumeToken(c, b, now).1, now + wait).0.allowed
  }

  /** After a refusal a later call on the kept bucket is allowed exactly when it waits at least retryAfterMs,
      provided the capacity is at least one. */
  lemma RetryAfterIsLeast(c: Config, b: Bucket, now: int, wait: nat)
    requires Valid(c) && c.capacity >= 1.0 && !ConsumeToken(c, b, now).0.allowed
    ensures var d := ConsumeToken(c, b, now).0;
            d.retryAfterMs >= 1 && (AllowedAfter(c, b, now, wait) <==> wait >= d.retryAfterMs)
  {
    var r := Refilled(c, b, now);
    RefillReaches(c, wait, 1.0 - r);
    RefillReaches(c, 0, 1.0 - r);
    RefillSign(c, 0);
  }

  /** A bucket that cannot hold a whole token never allows a call, whatever the wait advertised. */
  lemma RetryAfterNeedsCapacity(c: Config, b: Bucket, now: int)
    requires Valid(c) && Filled(c, b) && !ConsumeToken(c, b, now).0.allowed
    ensures (exists wait: nat :: AllowedAfter(c, b, now, wait)) <==> c.capacity >= 1.0
  {
    if c.capacity >= 1.0 {
      RetryAfterIsLeast(c, b, now, 0);
      var wait: nat := ConsumeToken(c, b, now).0.retryAfterMs;
      RetryAfterIsLeast(c, b, now, wait);
      assert AllowedAfter(c, b, now, wait);
    }
  }

  predicate NonDecreasing(last: int, times: seq<int>)
    decreases times
  {
    times == [] || (last <= times[0] && NonDecreasing(times[0], times[1..]))
  }

  /** Every call at `times` is refused and told to come back at the moment `ready`. */
  predicate AllToldToWait(c: Config, b: Bucket, times: seq<int>, ready: int)
    requires Valid(c)
    decreases times
  {
    times == [] ||
      (var (d, next) := ConsumeToken(c, b, times[0]);
       !d.allowed && times[0] + d.retryAfterMs == ready && AllToldToWait(c, next, times[1..], ready))
  }

  /** Refused calls in between do not change the moment at which a call is allowed. */
  lemma {:induction false} RefusalsDoNotPostpone(c: Config, b: Bucket, now: int, times: seq<int>)
    requires Valid(c) && c.capacity >= 1.0 && Filled(c, b) && NonDecreasing(now, times)
    requires !ConsumeToken(c, b, now).0.allowed
    requires Allowed(c, ConsumeToken(c, b, now).1, times) == 0
    ensures AllToldToWait(c, ConsumeToken(c, b, now).1, times, now + ConsumeToken(c, b, now).0.retryAfterMs)
    decreases times
  {
    if times != [] {
      var next := ConsumeToken(c, b, now).1;
      StaysFilled(c, b, now);
      hide Refilled, Decide;
      OneRefusal(c, b, now, times[0]);
      RefusalsDoNotPostpone(c, next, times[0], times[1..]);
    }
  }

  lemma OneRefusal(c: Config, b: Bucket, now: int, t: int)
    requires Valid(c) && c.capacity >= 1.0 && Filled(c, b) && now <= t
    requires !ConsumeToken(c, b, now).0.allowed && !ConsumeToken(c, ConsumeToken(c, b, now).1, t).0.allowed
    ensures now + ConsumeToken(c, b, now).0.retryAfterMs ==
            t + ConsumeToken(c, ConsumeToken(c, b, now).1, t).0.retryAfterMs
  {
    var r := Refilled(c, b, now);
    var next := ConsumeToken(c, b, now).1;
    assert next == Bucket(r, now);
    RefillSign(c, t - now);
    assert Refilled(c, next, t) == r + Refill(c, t - now);
    WaitShrinks(c, r, t - now);
  }

  lemma WaitShrinks(c: Config, r: real, ms: nat)
    requires Valid(c)
    ensures Ceil((1.0 - (r + Refill(c, ms))) * 1000.0 / c.refillPerSecond) ==
            Ceil((1.0 - r) * 1000.0 / c.refillPerSecond) - ms
  {
    var rate := c.refillPerSecond;
    var x, y := (1.0 - r) * 1000.0 / rate, (1.0 - (r + Refill(c, ms))) * 1000.0 / rate;
    assert x * rate == (1.0 - r) * 1000.0;
    assert y * rate == (1.0 - r) * 1000.0 - (ms as real) * rate;
    assert (y - (x - ms as real)) * rate == 0.0;
    assert y == x - ms as real;
  }

  // ---- the Redis key and its expiry ----

  /** PEXPIRE at every call: ceil(1000 * capacity / rate) milliseconds. */
  function TimeToLive(c: Config): int
    requires Valid(c)
  {
    Ceil(1000.0 * c.capacity / c.refillPerSecond)
  }

  /** The expiry is the least whole wait after which an empty bucket is full. */
  lemma TimeToLiveIsLeast(c: Config, last: int, ms: nat)
    requires Valid(c)
    ensures Refilled(c, Bucket(0.0, last), last + ms) == c.capacity <==> ms >= TimeToLive(c)
  {
    RefillReaches(c, ms, c.capacity);
    assert 1000.0 * c.capacity / c.refillPerSecond == c.capacity * 1000.0 / c.refillPerSecond;
  }

  datatype Key = Key(bucket: Bucket, expiresAt: int)

  /** The script on the stored key: a missing key stands for a full bucket. */
  function Script(c: Config, key: Option<Bucket>, now: int): (Decision, Bucket)
    requires Valid(c)
  {
    ConsumeToken(c, if key.Some? then key.value else Bucket(c.capacity, now), now)
  }

  class RedisBucket {
    var tokens: Option<real>
    var lastRefillAt: Option<int>
    var expiresAt: int

    function Stored(): Option<Bucket>
      reads this
    {
      if tokens.Some? && lastRefillAt.Some? then Some(Bucket(tokens.value, lastRefillAt.value)) else None
    }

    /** The key disappears; Redis does this some time after its expiry. */
    method Expire(now: int)
      requires now >= expiresAt
      modifies this
      ensures Stored().None? && expiresAt == old(expiresAt)
    {
      tokens := None;
      lastRefillAt := None;
    }

    /** CONSUME_TOKEN_SCRIPT; both fields of the hash are always written together. */
    method Consume(c: Config, now: int) returns (decision: Decision)
      requires Valid(c) && (tokens.Some? <==> lastRefillAt.Some?)
      modifies this
      ensures var was := if old(Stored()).Some? then old(Stored()).value else Bucket(c.capacity, now);
              decision == ConsumeToken(c, was, now).0 && Stored() == Some(ConsumeToken(c, was, now).1)
      ensures expiresAt == now + TimeToLive(c)
    {
      var t := if tokens.None? then c.capacity else tokens.value;
      var last := if lastRefillAt.None? then now else lastRefillAt.value;
      var elapsed := Common.Max(0, now - last);
      t := Min(c.capacity, t + Refill(c, elapsed));
      var allowed := false;
      var retryAfterMs := 0;
      if t >= 1.0 {
        t := t - 1.0;
        allowed := true;
      } else {
        retryAfterMs := Ceil((1.0 - t) * 1000.0 / c.refillPerSecond);
      }
      tokens := Some(t);
      lastRefillAt := Some(now);
      expiresAt := now + TimeToLive(c);
      decision := Decision(allowed, t, retryAfterMs);
    }
  }

  /** A call, and whether Redis has dropped the key before it. */
  datatype Call = Call(now: int, dropped: bool)

  function Next(c: Config, key: Option<Key>, call: Call): (Decision, Key)
    requires Valid(c)
  {
    var live := if key.Some? && !call.dropped then Some(key.value.bucket) else None;
    var (d, b) := Script(c, live, call.now);
    (d, Key(b, call.now + TimeToLive(c)))
  }

  /** On a monotone clock a key is dropped only when its time is up. */
  predicate Proper(c: Config, key: Option<Key>, calls: seq<Call>)
    requires Valid(c)
    decreases calls
  {
    calls == [] ||
      (&& (key.Some? ==> key.value.bucket.lastRefillAt <= calls[0].now)
       && (key.Some? && calls[0].dropped ==> calls[0].now >= key.value.expiresAt)
       && Proper(c, Some(Next(c, key, calls[0]).1), calls[1..]))
  }

  function Decisions(c: Config, key: Option<Key>, calls: seq<Call>): seq<Decision>
    requires Valid(c)
    decreases calls
  {
    if calls == [] then []
    else [Next(c, key, calls[0]).0] + Decisions(c, Some(Next(c, key, calls[0]).1), calls[1..])
  }

  /** The same calls on a bucket that is kept for ever. */
  function PlainDecisions(c: Config, b: Bucket, calls: seq<Call>): seq<Decision>
    requires Valid(c)
    decreases calls
  {
    if calls == [] then []
    else [ConsumeToken(c, b, calls[0].now).0] + PlainDecisions(c, ConsumeToken(c, b, calls[0].now).1, calls[1..])
  }

  /** A missing key stands for a full bucket. */
  function Plain(c: Config, key: Option<Key>, now: int): Bucket {
    match key
    case Some(k) => k.bucket
    case None => Bucket(c.capacity, now)
  }

  ghost predicate KeyOk(c: Config, key: Option<Key>)
    requires Valid(c)
  {
    key.Some? ==> Filled(c, key.value.bucket) && key.value.expiresAt == key.value.bucket.lastRefillAt + TimeToLive(c)
  }

  /** By the time the key may go, the bucket has refilled completely. */
  lemma DropChangesNothing(c: Config, key: Option<Key>, call: Call)
    requires Valid(c) && KeyOk(c, key)
    requires key.Some? ==> key.value.bucket.lastRefillAt <= call.now
    requires key.Some? && call.dropped ==> call.now >= key.value.expiresAt
    ensures Next(c, key, call).0 == ConsumeToken(c, Plain(c, key, call.now), call.now).0
    ensures Next(c, key, call).1.bucket == ConsumeToken(c, Plain(c, key, call.now), call.now).1
    ensures KeyOk(c, Some(Next(c, key, call).1))
  {
    RefillSign(c, 0);
    if key.Some? {
      var b := key.value.bucket;
      StaysFilled(c, b, call.now);
      if call.dropped {
        var elapsed := call.now - b.lastRefillAt;
        assert 1000.0 * c.capacity / c.refillPerSecond == c.capacity * 1000.0 / c.refillPerSecond;
        RefillReaches(c, elapsed, c.capacity);
        assert Refilled(c, b, call.now) == c.capacity;
      }
    }
    StaysFilled(c, Bucket(c.capacity, call.now), call.now);
  }

  /** Dropping expired keys never changes any later decision. */
  lemma {:induction false} ExpiryRefines(c: Config, key: Option<Key>, calls: seq<Call>)
    requires Valid(c) && KeyOk(c, key) && Proper(c, key, calls)
    ensures calls != [] ==> Decisions(c, key, calls) == PlainDecisions(c, Plain(c, key, calls[0].now), calls)
    decreases calls
  {
    if calls != [] {
      DropChangesNothing(c, key, calls[0]);
      ExpiryRefines(c, Some(Next(c, key, calls[0]).1), calls[1..]);
    }
  }
}
