/**
 * The sliding-window rate limiter, rate_limiter.py: per key, a Redis sorted
 * set of request timestamps. Each request adds the current second, drops the
 * timestamps that fell out of the window, counts what is left and renews the
 * key's expiry; more than `limit` requests in the window is a 429, anything
 * else calls the wrapped handler.
 *
 * One request at a time: the pipeline's atomicity across concurrent requests
 * and the key's expiry over time are not modelled; the clock is a parameter.
 */
module RateLimiting {
  import opened Strings

  const TooManyRequests: int := 429
  /** The `error` field of the 429 detail. */
  const TooManyRequestsError: string := "Too Many Requests"
  const KeyPrefix: string := "rate_limit:"

  /** A sorted set: member to score. */
  type SortedSet = map<string, int>

  /** `key or f"rate_limit:{host}"`: a custom key unless it is None or empty. */
  function RateKey(key: Option<string>, host: string): (k: string)
    ensures key.Some? && key.value != [] ==> k == key.value
    ensures key.None? || key.value == [] ==> k == KeyPrefix + host
  {
    if key.Some? && key.value != [] then key.value else KeyPrefix + host
  }

  /** `ZADD key {str(now): now}`: a request in a second already present only rewrites that member. */
  function Added(s: SortedSet, now: int): (r: SortedSet)
    ensures IntToString(now) in r && r[IntToString(now)] == now
    ensures forall m :: m in s && m != IntToString(now) ==> m in r && r[m] == s[m]
    ensures r.Keys == s.Keys + {IntToString(now)}
  {
    s[IntToString(now) := now]
  }

  /** `ZREMRANGEBYSCORE key 0 cutoff`: the members scored from 0 to the cutoff are removed, the rest kept. */
  function Pruned(s: SortedSet, cutoff: int): (r: SortedSet)
    ensures forall m :: m in r <==> m in s && !(0 <= s[m] <= cutoff)
    ensures forall m :: m in r ==> r[m] == s[m]
  {
    map m | m in s && !(0 <= s[m] <= cutoff) :: s[m]
  }

  /** Python's `%`, whose remainder takes the sign of the divisor. */
  function PyMod(a: int, b: int): (r: int)
    requires b != 0
    ensures b > 0 ==> 0 <= r < b
    ensures b < 0 ==> b < r <= 0
  {
    if b > 0 then a % b else -((-a) % (-b))
  }

  /** `window - (now % window)`: the seconds until the current window ends. */
  function RetryAfter(window: int, now: int): (r: int)
    requires window != 0
    ensures window > 0 ==> 1 <= r <= window
  {
    window - PyMod(now, window)
  }

  /** The outcome of one request. */
  datatype Decision =
    | Allowed
    | Rejected(status: int, error: string, message: string, retryAfter: int)
    | ZeroDivision   // `current_time % 0` while building the 429 detail

  function LimitMessage(limit: int, window: int): string {
    "Rate limit exceeded. Maximum " + IntToString(limit) + " requests per " + IntToString(window) + " seconds allowed."
  }

  /** The limiter and the part of Redis it touches. */
  class RateLimiter {
    const limit: int
    const window: int
    /** The sorted set of each key. */
    var sets: map<string, SortedSet>
    /** The expiry, in seconds, last set on each key. */
    var ttl: map<string, int>
    /** How many times the wrapped handler has been called. */
    var handlerCalls: nat

    constructor (limit: int, window: int)
      ensures this.limit == limit && this.window == window
      ensures sets == map[] && ttl == map[] && handlerCalls == 0
    {
      this.limit := limit;
      this.window := window;
      sets, ttl, handlerCalls := map[], map[], 0;
    }

    /** The set stored under a key; a missing key is an empty set. */
    function SetOf(k: string): SortedSet
      reads this
    {
      if k in sets then sets[k] else map[]
    }

    /**
     * One request at second `now`. The key's set becomes the old set with
     * `now` added and the out-of-window scores removed; the request is
     * rejected exactly when more than `limit` members remain, and only an
     * allowed request calls the handler, once.
     */
    method Handle(key: Option<string>, host: string, now: int) returns (d: Decision)
      modifies this
      ensures sets == old(sets)[RateKey(key, host) := Pruned(Added(old(SetOf(RateKey(key, host))), now), now - window)]
      ensures ttl == old(ttl)[RateKey(key, host) := window]
      ensures d.Allowed? <==> |sets[RateKey(key, host)]| <= limit
      ensures d.Allowed? ==> handlerCalls == old(handlerCalls) + 1
      ensures !d.Allowed? ==> handlerCalls == old(handlerCalls)
      ensures d.Rejected? ==> window != 0 && d == Rejected(TooManyRequests, TooManyRequestsError, LimitMessage(limit, window), RetryAfter(window, now))
      ensures d.ZeroDivision? <==> window == 0 && |sets[RateKey(key, host)]| > limit
    {
      var rateKey := RateKey(key, host);
      var current := SetOf(rateKey);
      current := Added(current, now);                  // ZADD
      current := Pruned(current, now - window);        // ZREMRANGEBYSCORE
      sets := sets[rateKey := current];
      var requestCount := |current|;                   // ZCARD
      ttl := ttl[rateKey := window];                   // EXPIRE
      if requestCount > limit {
        if window == 0 {
          return ZeroDivision;
        }
        return Rejected(TooManyRequests, TooManyRequestsError, LimitMessage(limit, window), RetryAfter(window, now));
      }
      handlerCalls := handlerCalls + 1;
      d := Allowed;
    }
  }

  /** A second request in the same second adds no member: it rewrites the one already there. */
  lemma SameSecondCollapses(s: SortedSet, now: int)
    ensures Added(Added(s, now), now) == Added(s, now)
    ensures |Added(s, now)| <= |s| + 1
  {
    var r := Added(s, now);
    assert r.Keys == s.Keys + {IntToString(now)};
    assert |s.Keys + {IntToString(now)}| <= |s.Keys| + |{IntToString(now)}|;
  }

  /** After pruning, every non-negative score left lies inside the window ending at `now`. */
  lemma PrunedInWindow(s: SortedSet, now: int, window: int)
    ensures var r := Pruned(Added(s, now), now - window);
      forall m :: m in r && r[m] >= 0 ==> r[m] > now - window
  {
  }

  /** With a positive window, the request just made is always counted. */
  lemma CurrentRequestCounted(s: SortedSet, now: int, window: int)
    requires window > 0
    ensures IntToString(now) in Pruned(Added(s, now), now - window)
    ensures |Pruned(Added(s, now), now - window)| >= 1
  {
    var r := Pruned(Added(s, now), now - window);
    assert IntToString(now) in r.Keys;
  }
}
