/** `createRouteRateLimiter` of `ui/server/index.js`: fixed windows per key, opened on demand. */
module RateLimit {
  import opened Prelude

  datatype Bucket = Bucket(count: nat, resetAt: int)

  datatype Config = Config(windowMs: nat, maxRequests: int)

  /** `next()`, or 429 with a Retry-After in seconds. */
  datatype Answer = Admitted | Limited(retryAfter: int)

  /** The quota of one window: the request that opens a window is never refused. */
  function Quota(cfg: Config): nat { if cfg.maxRequests < 1 then 1 else cfg.maxRequests }

  predicate Opens(b: Option<Bucket>, now: int) { b.None? || now >= b.value.resetAt }

  function NextBucket(cfg: Config, b: Option<Bucket>, now: int): Bucket {
    if Opens(b, now) then Bucket(1, now + cfg.windowMs) else b.value.(count := b.value.count + 1)
  }

  predicate Admits(cfg: Config, b: Option<Bucket>, now: int) {
    Opens(b, now) || b.value.count + 1 <= cfg.maxRequests
  }

  /** `Math.ceil(ms / 1000)`, but at least 1 */
  function RetryAfter(ms: int): (seconds: int)
    ensures seconds >= 1 && seconds * 1000 >= ms
    ensures seconds == 1 || (seconds - 1) * 1000 < ms
  {
    if ms <= 1000 then 1 else (ms + 999) / 1000
  }

  function Respond(cfg: Config, b: Option<Bucket>, now: int): Answer {
    if Admits(cfg, b, now) then Admitted else Limited(RetryAfter(b.value.resetAt - now))
  }

  // ---------------------------------------------------------------- runs on one key

  /** The bucket after requests at the given times. */
  function After(cfg: Config, b: Option<Bucket>, times: seq<int>): Option<Bucket>
    decreases |times|
  {
    if times == [] then b else After(cfg, Some(NextBucket(cfg, b, times[0])), times[1..])
  }

  predicate NonDecreasing(times: seq<int>) {
    forall i, j | 0 <= i < j < |times| :: times[i] <= times[j]
  }

  /** The requests admitted at a time from `a` on and before `a + windowMs`. */
  function AdmittedIn(cfg: Config, b: Option<Bucket>, times: seq<int>, a: int): nat
    decreases |times|
  {
    if times == [] then 0
    else (if a <= times[0] < a + cfg.windowMs && Admits(cfg, b, times[0]) then 1 else 0)
         + AdmittedIn(cfg, Some(NextBucket(cfg, b, times[0])), times[1..], a)
  }

  /** The requests admitted before a new window is opened. */
  function AdmittedByBucket(cfg: Config, b: Option<Bucket>, times: seq<int>): nat
    decreases |times|
  {
    if times == [] || Opens(b, times[0]) then 0
    else (if Admits(cfg, b, times[0]) then 1 else 0)
         + AdmittedByBucket(cfg, Some(NextBucket(cfg, b, times[0])), times[1..])
  }

  /** What is left of a window's quota. */
  function Left(cfg: Config, b: Bucket): nat {
    if b.count >= Quota(cfg) then 0 else Quota(cfg) - b.count
  }

  lemma {:induction false} BucketSpendsQuota(cfg: Config, b: Bucket, times: seq<int>)
    requires b.count >= 1
    ensures AdmittedByBucket(cfg, Some(b), times) <= Left(cfg, b)
    decreases |times|
  {
    if times == [] || Opens(Some(b), times[0]) {
    } else {
      BucketSpendsQuota(cfg, NextBucket(cfg, Some(b), times[0]), times[1..]);
    }
  }

  /** One window, the opening request included, admits at most the quota: `maxRequests`, or one if that is less. */
  lemma WindowKeepsQuota(cfg: Config, b: Option<Bucket>, now: int, later: seq<int>)
    requires Opens(b, now)
    ensures 1 + AdmittedByBucket(cfg, Some(NextBucket(cfg, b, now)), later) <= Quota(cfg)
  {
    BucketSpendsQuota(cfg, NextBucket(cfg, b, now), later);
  }

  lemma {:induction false} WindowFillsUp(cfg: Config, b: Bucket, now: int, n: nat)
    requires now < b.resetAt && b.count >= 1 && n <= Left(cfg, b) && cfg.maxRequests >= 1
    ensures AdmittedByBucket(cfg, Some(b), seq(n, _ => now)) == n
    decreases n
  {
    if n == 0 {
    } else {
      assert seq(n, _ => now)[1..] == seq(n - 1, _ => now);
      WindowFillsUp(cfg, NextBucket(cfg, Some(b), now), now, n - 1);
    }
  }

  /**
   `maxRequests` is a bound for each window if and only if it is at least 1: the quota can be
   used up, and the request that opens a window passes whatever `maxRequests` says.
   */
  lemma BoundIsMaxRequests(cfg: Config, b: Option<Bucket>, now: int)
    requires Opens(b, now)
    ensures (forall later: seq<int> :: 1 + AdmittedByBucket(cfg, Some(NextBucket(cfg, b, now)), later) <= cfg.maxRequests)
       <==> cfg.maxRequests >= 1
  {
    var bucket := Some(NextBucket(cfg, b, now));
    if cfg.maxRequests >= 1 {
      forall later: seq<int> ensures 1 + AdmittedByBucket(cfg, bucket, later) <= cfg.maxRequests {
        WindowKeepsQuota(cfg, b, now, later);
      }
    } else {
      var none: seq<int> := [];
      assert 1 + AdmittedByBucket(cfg, bucket, none) > cfg.maxRequests;
    }
  }

  /**
   How many requests can still be admitted in the `windowMs` from `a` on: none once they are
   over, what is left of the current window if it lasts that long, one more window if the
   current one ends inside.  A window that is opened inside lasts to the end or longer; one
   that is opened before has spent at least its opening request by then.
   */
  function Potential(cfg: Config, b: Option<Bucket>, now: int, a: int): nat {
    if now >= a + cfg.windowMs then 0
    else if b.None? || b.value.resetAt < a then 2 * Quota(cfg) - 1
    else if b.value.resetAt >= a + cfg.windowMs then Left(cfg, b.value)
    else Left(cfg, b.value) + Quota(cfg)
  }

  /** A bucket as the limiter leaves it. */
  predicate Plausible(cfg: Config, b: Option<Bucket>, now: int) {
    b.Some? ==> b.value.count >= 1 && b.value.resetAt <= now + cfg.windowMs
  }

  lemma PotentialStep(cfg: Config, b: Option<Bucket>, clock: int, now: int, a: int)
    requires clock <= now && Plausible(cfg, b, clock)
    ensures Plausible(cfg, Some(NextBucket(cfg, b, now)), now)
    ensures Potential(cfg, b, clock, a)
         >= Potential(cfg, Some(NextBucket(cfg, b, now)), now, a)
            + (if a <= now < a + cfg.windowMs && Admits(cfg, b, now) then 1 else 0)
  {
  }

  lemma {:induction false} PotentialBounds(cfg: Config, b: Option<Bucket>, clock: int, times: seq<int>, a: int)
    requires Plausible(cfg, b, clock) && NonDecreasing([clock] + times)
    ensures AdmittedIn(cfg, b, times, a) <= Potential(cfg, b, clock, a)
    decreases |times|
  {
    if times == [] {
    } else {
      var now := times[0];
      assert ([clock] + times)[0] <= ([clock] + times)[1];
      assert [now] + times[1..] == ([clock] + times)[1..];
      PotentialStep(cfg, b, clock, now, a);
      PotentialBounds(cfg, Some(NextBucket(cfg, b, now)), now, times[1..], a);
    }
  }

  /** With a clock that does not go back, any half-open stretch of `windowMs` admits fewer than two quotas of one key. */
  lemma FewerThanTwoQuotas(cfg: Config, times: seq<int>, a: int)
    requires NonDecreasing(times)
    ensures AdmittedIn(cfg, None, times, a) <= 2 * Quota(cfg) - 1
  {
    if times != [] {
      assert NonDecreasing([times[0]] + times);
      PotentialBounds(cfg, None, times[0], times, a);
    }
  }

  /** `n` requests at the same time inside an open window that has room for them. */
  lemma {:induction false} Burst(cfg: Config, b: Bucket, now: int, n: nat, rest: seq<int>, a: int)
    requires now < b.resetAt && b.count >= 1 && n <= Left(cfg, b) && a <= now < a + cfg.windowMs && cfg.maxRequests >= 1
    ensures AdmittedIn(cfg, Some(b), seq(n, _ => now) + rest, a)
         == n + AdmittedIn(cfg, Some(b.(count := b.count + n)), rest, a)
    decreases n
  {
    var times := seq(n, _ => now) + rest;
    if n == 0 {
      assert times == rest;
    } else {
      assert times[0] == now && times[1..] == seq(n - 1, _ => now) + rest;
      OneMore(cfg, b, times, a);
      Burst(cfg, b.(count := b.count + 1), now, n - 1, rest, a);
    }
  }

  /** One request inside an open window that has room for it. */
  lemma OneMore(cfg: Config, b: Bucket, times: seq<int>, a: int)
    requires times != [] && times[0] < b.resetAt && Left(cfg, b) >= 1 && a <= times[0] < a + cfg.windowMs && cfg.maxRequests >= 1
    ensures AdmittedIn(cfg, Some(b), times, a) == 1 + AdmittedIn(cfg, Some(b.(count := b.count + 1)), times[1..], a)
  {
  }

  /** The bound is sharp: one request just before the stretch, the rest of its window in it, and a whole window at its end. */
  lemma BoundIsReached(cfg: Config, a: int) returns (times: seq<int>)
    requires cfg.maxRequests >= 1 && cfg.windowMs >= 2
    ensures NonDecreasing(times) && AdmittedIn(cfg, None, times, a) == 2 * Quota(cfg) - 1
  {
    var q := Quota(cfg);
    var end := a - 1 + cfg.windowMs;
    var last := [end] + seq(q - 1, _ => end);
    var middle := seq(q - 1, _ => a);
    times := [a - 1] + (middle + last);
    var first := Bucket(1, end);
    assert times[1..] == middle + last;
    assert AdmittedIn(cfg, None, times, a) == AdmittedIn(cfg, Some(first), middle + last, a);
    Burst(cfg, first, a, q - 1, last, a);
    WholeWindow(cfg, first.(count := q), end, a);
  }

  /** A window that opens when the one before ends admits a whole quota at once. */
  lemma WholeWindow(cfg: Config, b: Bucket, end: int, a: int)
    requires b.resetAt == end && a <= end < a + cfg.windowMs && cfg.maxRequests >= 1 && cfg.windowMs >= 1
    ensures AdmittedIn(cfg, Some(b), [end] + seq(Quota(cfg) - 1, _ => end), a) == Quota(cfg)
  {
    var rest := seq(Quota(cfg) - 1, _ => end);
    assert ([end] + rest)[1..] == rest + [];
    Burst(cfg, Bucket(1, end + cfg.windowMs), end, Quota(cfg) - 1, [], a);
  }

  /** A client that waits as long as it is told finds its window over, and is admitted if nothing came in between. */
  lemma RetryAfterSuffices(cfg: Config, b: Option<Bucket>, now: int, later: int)
    requires Respond(cfg, b, now).Limited? && later >= now + 1000 * Respond(cfg, b, now).retryAfter
    ensures var after := NextBucket(cfg, b, now);
            later >= after.resetAt && Respond(cfg, Some(after), later).Admitted?
  {
  }

  /** A window counts its requests from the first one on, and admits a further one exactly if there are fewer than `maxRequests`. */
  lemma RequestsAreCounted(cfg: Config, b: Option<Bucket>, times: seq<int>, now: int)
    requires times != [] && (b.None? || times[0] >= b.value.resetAt)
    requires forall i | 0 <= i < |times| :: times[i] < times[0] + cfg.windowMs
    requires forall i | 0 <= i < |times| :: times[0] <= times[i]
    ensures After(cfg, b, times) == Some(Bucket(|times|, times[0] + cfg.windowMs))
    ensures times[0] <= now < times[0] + cfg.windowMs ==>
              Respond(cfg, After(cfg, b, times), now)
              == if |times| < cfg.maxRequests then Admitted else Limited(RetryAfter(times[0] + cfg.windowMs - now))
  {
    var first := Bucket(1, times[0] + cfg.windowMs);
    assert After(cfg, b, times) == After(cfg, Some(first), times[1..]);
    StillOpen(cfg, first, times[1..]);
  }

  lemma {:induction false} StillOpen(cfg: Config, b: Bucket, times: seq<int>)
    requires forall i | 0 <= i < |times| :: times[i] < b.resetAt
    ensures After(cfg, Some(b), times) == Some(Bucket(b.count + |times|, b.resetAt))
    decreases |times|
  {
    if times == [] {
    } else {
      StillOpen(cfg, b.(count := b.count + 1), times[1..]);
    }
  }

  // ---------------------------------------------------------------- the middleware

  class RouteRateLimiter {
    const config: Config
    const keyPrefix: string
    var buckets: map<string, Bucket>

    constructor (config: Config, keyPrefix: string)
      ensures buckets == map[] && this.config == config && this.keyPrefix == keyPrefix
    {
      this.config, this.keyPrefix, buckets := config, keyPrefix, map[];
    }

    function Of(identity: string): Option<Bucket>
      reads this
    {
      var key := keyPrefix + ":" + identity;
      if key in buckets then Some(buckets[key]) else None
    }

    /** One request: the identity is the user, the address or "anonymous". */
    method Handle(identity: string, now: int) returns (answer: Answer)
      modifies this`buckets
      ensures answer == Respond(config, old(Of(identity)), now)
      ensures buckets == old(buckets)[keyPrefix + ":" + identity := NextBucket(config, old(Of(identity)), now)]
    {
      var key := keyPrefix + ":" + identity;
      if key !in buckets || now >= buckets[key].resetAt {
        buckets := buckets[key := Bucket(1, now + config.windowMs)];
        return Admitted;
      }
      var bucket := buckets[key].(count := buckets[key].count + 1);
      buckets := buckets[key := bucket];
      if bucket.count <= config.maxRequests {
        return Admitted;
      }
      return Limited(RetryAfter(bucket.resetAt - now));
    }
  }
}
