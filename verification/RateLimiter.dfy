/** The gateway's fixed-window limiter: a Redis counter that expires one window after its first hit. */
module RateLimiter {
  import opened Wrappers

  /** What Redis holds for a key: the count and the millisecond at which it expires. */
  datatype Counter = Counter(count: nat, deadline: int)

  /** `limit` and `window` (ms) come from the gateway. Redis versions differ on whether a key is still
      served in its deadline millisecond; every result here holds for both values of `servedAtDeadline`. */
  datatype Config = Config(limit: int, window: int, servedAtDeadline: bool)

  predicate Alive(cfg: Config, c: Counter, now: int) {
    now < c.deadline || (now == c.deadline && cfg.servedAtDeadline)
  }

  /** The counter INCR finds: none once the deadline has passed. */
  function Live(cfg: Config, stored: Option<Counter>, now: int): Option<Counter> {
    if stored.Some? && Alive(cfg, stored.value, now) then stored else None
  }

  /** INCR, then PEXPIRE on the first hit. A non-positive expiry deletes the key on the spot. */
  function Hit(cfg: Config, stored: Option<Counter>, now: int): (r: (Option<Counter>, nat))
    ensures r.1 >= 1
  {
    match Live(cfg, stored, now)
    case Some(c) => (Some(c.(count := c.count + 1)), c.count + 1)
    case None => (if cfg.window > 0 then Some(Counter(1, now + cfg.window)) else None, 1)
  }

  class RedisRateLimiter {
    const cfg: Config
    var counters: map<string, Counter>

    constructor (cfg: Config)
      ensures this.cfg == cfg && counters == map[]
    {
      this.cfg := cfg;
      counters := map[];
    }

    function Stored(key: string): Option<Counter>
      reads this
    {
      if key in counters then Some(counters[key]) else None
    }

    method Allow(key: string, now: int) returns (allowed: bool)
      modifies this
      ensures Stored(key) == Hit(cfg, old(Stored(key)), now).0
      ensures allowed <==> Hit(cfg, old(Stored(key)), now).1 <= cfg.limit
      ensures forall k :: k != key ==> Stored(k) == old(Stored(k))
    {
      var count;
      if key in counters && Alive(cfg, counters[key], now) {
        count := counters[key].count + 1;
        counters := counters[key := counters[key].(count := count)];
      } else {
        count := 1;
        if cfg.window > 0 {
          counters := counters[key := Counter(1, now + cfg.window)];
        } else {
          counters := counters - {key};
        }
      }
      allowed := count <= cfg.limit;
    }
  }

  // ---- Runs: any interleaving of keys, times never decreasing.

  datatype Request = Request(key: string, at: int)

  predicate Ordered(reqs: seq<Request>) {
    forall i, j :: 0 <= i < j < |reqs| ==> reqs[i].at <= reqs[j].at
  }

  /** The counter of `key` after the requests. */
  function After(cfg: Config, reqs: seq<Request>, key: string): Option<Counter> {
    if reqs == [] then None
    else
      var before, last := After(cfg, reqs[..|reqs| - 1], key), reqs[|reqs| - 1];
      if last.key == key then Hit(cfg, before, last.at).0 else before
  }

  /** Whether the last of a non-empty run of requests is let through. */
  predicate LastAllowed(cfg: Config, reqs: seq<Request>)
    requires reqs != []
  {
    var last := reqs[|reqs| - 1];
    Hit(cfg, After(cfg, reqs[..|reqs| - 1], last.key), last.at).1 <= cfg.limit
  }

  /** How many requests for `key` with from <= at < to are let through. */
  function Allowed(cfg: Config, reqs: seq<Request>, key: string, from: int, to: int): nat {
    if reqs == [] then 0
    else
      var last := reqs[|reqs| - 1];
      Allowed(cfg, reqs[..|reqs| - 1], key, from, to)
      + if last.key == key && from <= last.at < to && LastAllowed(cfg, reqs) then 1 else 0
  }

  function Min(a: int, b: int): int { if a < b then a else b }

  lemma {:induction false} NoneBefore(cfg: Config, reqs: seq<Request>, key: string, from: int, to: int)
    requires forall i :: 0 <= i < |reqs| && reqs[i].key == key ==> reqs[i].at < from
    ensures Allowed(cfg, reqs, key, from, to) == 0
  {
    if reqs == [] {
    } else {
      NoneBefore(cfg, reqs[..|reqs| - 1], key, from, to);
    }
  }

  /** The counter's first hit was a request already made, and the counter outlives every request it saw. */
  lemma {:induction false} CounterCoversRequests(cfg: Config, reqs: seq<Request>, key: string)
    requires cfg.window > 0 && Ordered(reqs)
    ensures match After(cfg, reqs, key)
      case None => forall i :: 0 <= i < |reqs| ==> reqs[i].key != key
      case Some(c) =>
        && reqs != [] && c.count >= 1
        && c.deadline - cfg.window <= reqs[|reqs| - 1].at
        && forall i :: 0 <= i < |reqs| && reqs[i].key == key ==> Alive(cfg, c, reqs[i].at)
  {
    if reqs == [] {
    } else {
      CounterCoversRequests(cfg, reqs[..|reqs| - 1], key);
    }
  }

  /** Within one counter lifetime exactly the first `limit` hits are let through. */
  lemma {:induction false} LifetimeBound(cfg: Config, reqs: seq<Request>, key: string, to: int)
    requires cfg.limit >= 0 && cfg.window > 0 && Ordered(reqs)
    requires forall i :: 0 <= i < |reqs| ==> reqs[i].at < to
    ensures match After(cfg, reqs, key)
      case None => Allowed(cfg, reqs, key, 0, to) == 0
      case Some(c) => Allowed(cfg, reqs, key, c.deadline - cfg.window, to) == Min(c.count, cfg.limit)
  {
    if reqs == [] {
    } else {
      var init, last := reqs[..|reqs| - 1], reqs[|reqs| - 1];
      LifetimeBound(cfg, init, key, to);
      CounterCoversRequests(cfg, init, key);
      if last.key == key && Live(cfg, After(cfg, init, key), last.at).None? {
        NoneBefore(cfg, init, key, last.at, to);
      }
    }
  }

  /** Requests let through in the window [from, from + W), against the counter that is live or was last.
      A counter that started before the window spent at least one hit before it. */
  ghost predicate WindowInvariant(cfg: Config, stored: Option<Counter>, allowed: nat, from: int) {
    match stored
    case None => allowed == 0
    case Some(c) =>
      var start, used := c.deadline - cfg.window, Min(c.count, cfg.limit);
      && (start < from ==> allowed <= used - 1)
      && (from <= start < from + cfg.window ==> allowed <= cfg.limit - 1 + used)
      && allowed <= 2 * cfg.limit - 1
  }

  lemma {:induction false} WindowInvariantHolds(cfg: Config, reqs: seq<Request>, key: string, from: int)
    requires cfg.limit > 0 && cfg.window > 0 && Ordered(reqs)
    ensures WindowInvariant(cfg, After(cfg, reqs, key), Allowed(cfg, reqs, key, from, from + cfg.window), from)
  {
    if reqs == [] {
    } else {
      var init, last := reqs[..|reqs| - 1], reqs[|reqs| - 1];
      WindowInvariantHolds(cfg, init, key, from);
      CounterCoversRequests(cfg, init, key);
      CounterCoversRequests(cfg, reqs, key);
      if forall i :: 0 <= i < |init| && init[i].key == key ==> init[i].at < from {
        NoneBefore(cfg, init, key, from, from + cfg.window);
      }
    }
  }

  /** In any interval one window long a key is let through fewer than twice the limit, whatever else runs. */
  lemma SlidingBound(cfg: Config, reqs: seq<Request>, key: string, from: int)
    requires cfg.limit > 0 && cfg.window > 0 && Ordered(reqs)
    ensures Allowed(cfg, reqs, key, from, from + cfg.window) <= 2 * cfg.limit - 1
  {
    WindowInvariantHolds(cfg, reqs, key, from);
  }

  /** What a closed interval [from, from + W] can hold: twice the limit where a counter is gone in its deadline
      millisecond; where it still serves there, one less, since a counter followed by another within the
      interval must have been opened before it. */
  function ClosedBound(cfg: Config): int {
    if cfg.servedAtDeadline then 2 * cfg.limit - 1 else 2 * cfg.limit
  }

  /** A counter opened at the very start of the interval owns everything in it so far, so a third counter
      can only follow that one. */
  ghost predicate ClosedInvariant(cfg: Config, stored: Option<Counter>, allowed: nat, from: int) {
    match stored
    case None => allowed == 0
    case Some(c) =>
      var start, used := c.deadline - cfg.window, Min(c.count, cfg.limit);
      && (start < from ==> allowed <= used - 1)
      && (start == from ==> allowed <= used)
      && (from < start <= from + cfg.window ==> allowed <= ClosedBound(cfg) - cfg.limit + used)
      && allowed <= ClosedBound(cfg)
  }

  lemma {:induction false} ClosedInvariantHolds(cfg: Config, reqs: seq<Request>, key: string, from: int)
    requires cfg.limit > 0 && cfg.window > 0 && Ordered(reqs)
    ensures ClosedInvariant(cfg, After(cfg, reqs, key), Allowed(cfg, reqs, key, from, from + cfg.window + 1), from)
  {
    if reqs == [] {
    } else {
      var init := reqs[..|reqs| - 1];
      ClosedInvariantHolds(cfg, init, key, from);
      CounterCoversRequests(cfg, init, key);
      CounterCoversRequests(cfg, reqs, key);
      if forall i :: 0 <= i < |init| && init[i].key == key ==> init[i].at < from {
        NoneBefore(cfg, init, key, from, from + cfg.window + 1);
      }
    }
  }

  /** The bound for intervals that count both end points. */
  lemma ClosedSlidingBound(cfg: Config, reqs: seq<Request>, key: string, from: int)
    requires cfg.limit > 0 && cfg.window > 0 && Ordered(reqs)
    ensures Allowed(cfg, reqs, key, from, from + cfg.window + 1) <= ClosedBound(cfg) <= 2 * cfg.limit
  {
    ClosedInvariantHolds(cfg, reqs, key, from);
  }

  /** Everything let through in one millisecond is let through by one counter. */
  ghost predicate InstantInvariant(cfg: Config, stored: Option<Counter>, allowed: nat, at: int) {
    match stored
    case None => allowed == 0
    case Some(c) =>
      if c.deadline - cfg.window <= at then allowed <= Min(c.count, cfg.limit) else allowed <= cfg.limit
  }

  lemma {:induction false} InstantInvariantHolds(cfg: Config, reqs: seq<Request>, key: string, at: int)
    requires cfg.limit > 0 && cfg.window > 0 && Ordered(reqs)
    ensures InstantInvariant(cfg, After(cfg, reqs, key), Allowed(cfg, reqs, key, at, at + 1), at)
  {
    if reqs == [] {
    } else {
      var init := reqs[..|reqs| - 1];
      InstantInvariantHolds(cfg, init, key, at);
      CounterCoversRequests(cfg, init, key);
      CounterCoversRequests(cfg, reqs, key);
      if forall i :: 0 <= i < |init| && init[i].key == key ==> init[i].at < at {
        NoneBefore(cfg, init, key, at, at + 1);
      }
    }
  }

  lemma InstantBound(cfg: Config, reqs: seq<Request>, key: string, at: int)
    requires cfg.limit > 0 && cfg.window > 0 && Ordered(reqs)
    ensures Allowed(cfg, reqs, key, at, at + 1) <= cfg.limit
  {
    InstantInvariantHolds(cfg, reqs, key, at);
  }

  /** The run `prior`, then `n` copies of one request. */
  function Repeat(prior: seq<Request>, r: Request, n: nat): seq<Request> {
    if n == 0 then prior else Repeat(prior, r, n - 1) + [r]
  }

  lemma {:induction false} RepeatOrdered(prior: seq<Request>, r: Request, n: nat)
    requires Ordered(prior) && forall i :: 0 <= i < |prior| ==> prior[i].at <= r.at
    ensures var reqs := Repeat(prior, r, n);
      Ordered(reqs) && forall i :: 0 <= i < |reqs| ==> reqs[i].at <= r.at
  {
    if n == 0 {
    } else {
      RepeatOrdered(prior, r, n - 1);
    }
  }

  /** The counter a hit adds to, opened if need be. */
  function Open(cfg: Config, stored: Option<Counter>, now: int): Counter {
    match Live(cfg, stored, now)
    case Some(c) => c
    case None => Counter(0, now + cfg.window)
  }

  /** The requests filled the counter up to `n` from the counter `c`, and all went through. */
  ghost predicate FilledBy(cfg: Config, prior: seq<Request>, reqs: seq<Request>, r: Request, n: nat, from: int,
                           to: int) {
    var c := Open(cfg, After(cfg, prior, r.key), r.at);
    && Allowed(cfg, reqs, r.key, from, to) == Allowed(cfg, prior, r.key, from, to) + n
    && Open(cfg, After(cfg, reqs, r.key), r.at) == Counter(c.count + n, c.deadline)
    && (n > 0 ==> After(cfg, reqs, r.key) == Some(Counter(c.count + n, c.deadline)))
  }

  lemma FillOne(cfg: Config, prior: seq<Request>, reqs: seq<Request>, r: Request, n: nat, from: int, to: int)
    requires cfg.window > 0 && from <= r.at < to && FilledBy(cfg, prior, reqs, r, n, from, to)
    requires Open(cfg, After(cfg, prior, r.key), r.at).count + n < cfg.limit
    ensures FilledBy(cfg, prior, reqs + [r], r, n + 1, from, to)
  {}

  /** `n` hits on a counter that has room for them all. */
  lemma {:induction false} RepeatAllowed(cfg: Config, prior: seq<Request>, r: Request, n: nat, from: int, to: int)
    requires cfg.window > 0 && from <= r.at < to
    requires Open(cfg, After(cfg, prior, r.key), r.at).count + n <= cfg.limit
    ensures FilledBy(cfg, prior, Repeat(prior, r, n), r, n, from, to)
  {
    if n == 0 {
    } else {
      RepeatAllowed(cfg, prior, r, n - 1, from, to);
      FillOne(cfg, prior, Repeat(prior, r, n - 1), r, n - 1, from, to);
    }
  }

  /** The last millisecond at which a counter opened at 0 still serves. */
  function LastServed(cfg: Config): int {
    if cfg.servedAtDeadline then cfg.window else cfg.window - 1
  }

  /** One hit at 0, whether or not the interval counts it. */
  lemma Opener(cfg: Config, key: string, from: int, to: int)
    requires cfg.limit > 0 && cfg.window > 0 && 0 < to
    ensures Ordered([Request(key, 0)]) && After(cfg, [Request(key, 0)], key) == Some(Counter(1, cfg.window))
    ensures Open(cfg, Some(Counter(1, cfg.window)), LastServed(cfg)) == Counter(1, cfg.window)
    ensures Allowed(cfg, [Request(key, 0)], key, from, to) == if 0 < from then 0 else 1
  {}

  /** `n` more hits of one request, on a counter that has room for them. */
  lemma Burst(cfg: Config, prior: seq<Request>, r: Request, n: nat, from: int, to: int) returns (reqs: seq<Request>)
    requires cfg.window > 0 && from <= r.at < to && Ordered(prior)
    requires forall i :: 0 <= i < |prior| ==> prior[i].at <= r.at
    requires Open(cfg, After(cfg, prior, r.key), r.at).count + n <= cfg.limit
    ensures Ordered(reqs) && forall i :: 0 <= i < |reqs| ==> reqs[i].at <= r.at
    ensures Allowed(cfg, reqs, r.key, from, to) == Allowed(cfg, prior, r.key, from, to) + n
    ensures var c := Open(cfg, After(cfg, prior, r.key), r.at);
      After(cfg, reqs, r.key) == if n == 0 then After(cfg, prior, r.key) else Some(Counter(c.count + n, c.deadline))
  {
    RepeatOrdered(prior, r, n);
    RepeatAllowed(cfg, prior, r, n, from, to);
    reqs := Repeat(prior, r, n);
  }

  /** The counter opened at 0 is filled in its last millisecond. */
  lemma Filled(cfg: Config, key: string, from: int, to: int) returns (reqs: seq<Request>)
    requires cfg.limit > 0 && cfg.window > 0 && from <= LastServed(cfg) < to
    ensures Ordered(reqs) && forall i :: 0 <= i < |reqs| ==> reqs[i].at <= LastServed(cfg)
    ensures After(cfg, reqs, key) == Some(Counter(cfg.limit, cfg.window))
    ensures Allowed(cfg, reqs, key, from, to) == if 0 < from then cfg.limit - 1 else cfg.limit
  {
    Opener(cfg, key, from, to);
    reqs := Burst(cfg, [Request(key, 0)], Request(key, LastServed(cfg)), cfg.limit - 1, from, to);
  }

  /** And the next one is filled in the millisecond after. */
  lemma TwoBursts(cfg: Config, key: string, from: int, to: int) returns (reqs: seq<Request>)
    requires cfg.limit > 0 && cfg.window > 0 && from <= LastServed(cfg) && LastServed(cfg) + 1 < to
    ensures Ordered(reqs)
    ensures Allowed(cfg, reqs, key, from, to) == if 0 < from then 2 * cfg.limit - 1 else 2 * cfg.limit
  {
    var filled := Filled(cfg, key, from, to);
    reqs := Burst(cfg, filled, Request(key, LastServed(cfg) + 1), cfg.limit, from, to);
  }

  ghost predicate LetsThrough(cfg: Config, key: string, reqs: seq<Request>, from: int, length: int, n: int) {
    Ordered(reqs) && Allowed(cfg, reqs, key, from, from + length) == n
  }

  /** Some run of requests lets `n` through in some interval of `length` milliseconds. */
  ghost predicate Reached(cfg: Config, key: string, length: int, n: int) {
    exists reqs, from :: LetsThrough(cfg, key, reqs, from, length, n)
  }

  /** The bound on half-open intervals is reached exactly by windows of two milliseconds or more, and by
      a limit of one. */
  lemma SlidingBoundIsTight(cfg: Config, key: string)
    requires cfg.limit > 0 && cfg.window > 0
    ensures Reached(cfg, key, cfg.window, 2 * cfg.limit - 1) <==> cfg.window >= 2 || cfg.limit == 1
  {
    if cfg.window >= 2 {
      var from := LastServed(cfg);
      var reqs := TwoBursts(cfg, key, from, from + cfg.window);
      assert LetsThrough(cfg, key, reqs, from, cfg.window, 2 * cfg.limit - 1);
    } else if cfg.limit == 1 {
      Opener(cfg, key, 0, 1);
      assert LetsThrough(cfg, key, [Request(key, 0)], 0, cfg.window, 2 * cfg.limit - 1);
    } else if Reached(cfg, key, cfg.window, 2 * cfg.limit - 1) {
      var reqs, from :| LetsThrough(cfg, key, reqs, from, cfg.window, 2 * cfg.limit - 1);
      InstantBound(cfg, reqs, key, from);
    }
  }

  /** The bound on closed intervals is always reached. */
  lemma ClosedSlidingBoundIsTight(cfg: Config, key: string)
    requires cfg.limit > 0 && cfg.window > 0
    ensures Reached(cfg, key, cfg.window + 1, ClosedBound(cfg))
  {
    var from := if cfg.servedAtDeadline then 1 else 0;
    var reqs := TwoBursts(cfg, key, from, from + (cfg.window + 1));
    assert LetsThrough(cfg, key, reqs, from, cfg.window + 1, ClosedBound(cfg));
  }

  /** With no positive limit nothing passes; with a window under a millisecond everything else does. */
  lemma {:induction false} DegenerateConfigs(cfg: Config, reqs: seq<Request>, key: string, from: int, to: int)
    ensures cfg.limit <= 0 ==> Allowed(cfg, reqs, key, from, to) == 0
    ensures cfg.limit >= 1 && cfg.window <= 0 ==> After(cfg, reqs, key) == None
    ensures cfg.limit >= 1 && cfg.window <= 0
            && (forall i :: 0 <= i < |reqs| ==> reqs[i].key == key && from <= reqs[i].at < to)
      ==> Allowed(cfg, reqs, key, from, to) == |reqs|
  {
    if reqs == [] {
    } else {
      DegenerateConfigs(cfg, reqs[..|reqs| - 1], key, from, to);
    }
  }
}
