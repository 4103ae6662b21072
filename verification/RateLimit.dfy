/**
 The fixed-window rate limiter (apps/api/src/ratelimit/rate-limit.ts): the server-side script on one
 counter key, and the guard's test of the count.

 Times are whole milliseconds. A key is gone from the instant its expiry names.
 */
module RateLimit {
  import opened Wrappers

  /** A live counter; `expires` is absent when the key has lost its time to live. */
  datatype Counter = Counter(count: int, expires: Option<int>)

  type Key = Option<Counter>

  datatype Config = Config(limit: nat, window: nat)

  datatype Event =
    | Request(time: int)
    | LoseTtl(time: int)
    | Outage(time: int)

  // ------------------------------------------------------------ the script

  function Live(key: Key, now: int): Key {
    if key.Some? && key.value.expires.Some? && key.value.expires.value <= now then None else key
  }

  function Incremented(key: Key): Counter {
    match key
    case None => Counter(1, None)
    case Some(c) => c.(count := c.count + 1)
  }

  /** Increment, and arm the expiry of a key that has none. */
  function Script(cfg: Config, key: Key, now: int): Counter {
    var c := Incremented(Live(key, now));
    if c.count == 1 || c.expires.None? then c.(expires := Some(now + cfg.window)) else c
  }

  class CounterKey {
    var key: Key

    constructor (key: Key)
      ensures this.key == key
    {
      this.key := key;
    }

    /** The script: INCR, then EXPIRE when the count is one or the key has no time to live. */
    method Eval(cfg: Config, now: int) returns (count: int, remaining: int)
      requires cfg.window > 0
      modifies this
      ensures key == Some(Script(cfg, old(key), now))
      ensures count == key.value.count
      ensures key.value.expires == Some(now + remaining) && remaining > 0
    {
      key := Live(key, now);
      if key.None? {
        key := Some(Counter(1, None));
      } else {
        key := Some(Counter(key.value.count + 1, key.value.expires));
      }
      if key.value.count == 1 || key.value.expires.None? {
        key := Some(Counter(key.value.count, Some(now + cfg.window)));
      }
      return key.value.count, key.value.expires.value - now;
    }

    /** The guard: a request is refused when the count exceeds the limit. */
    method CanActivate(cfg: Config, now: int) returns (admitted: bool)
      requires cfg.window > 0
      modifies this
      ensures (key, admitted) == Step(cfg, old(key), Request(now))
    {
      var count, _ := Eval(cfg, now);
      return count <= cfg.limit;
    }
  }

  // ------------------------------------------------------------ traces

  /** What an event does to the key, and whether it lets a request through. An outage fails open. */
  function Step(cfg: Config, key: Key, e: Event): (Key, bool) {
    match e
    case Request(now) =>
      var c := Script(cfg, key, now);
      (Some(c), c.count <= cfg.limit)
    case LoseTtl(now) =>
      var k := Live(key, now);
      (if k.Some? then Some(k.value.(expires := None)) else None, false)
    case Outage(_) => (key, true)
  }

  function After(cfg: Config, key: Key, events: seq<Event>): Key
    decreases |events|
  {
    if events == [] then key else After(cfg, Step(cfg, key, events[0]).0, events[1..])
  }

  predicate Within(cfg: Config, e: Event, start: int) {
    start <= e.time < start + cfg.window
  }

  /** The requests let through in the interval of one window's length from `start`. */
  function Admitted(cfg: Config, key: Key, events: seq<Event>, start: int): nat
    decreases |events|
  {
    if events == [] then 0 else
    var (next, ok) := Step(cfg, key, events[0]);
    (if ok && Within(cfg, events[0], start) then 1 else 0) + Admitted(cfg, next, events[1..], start)
  }

  function Outages(cfg: Config, events: seq<Event>, start: int): nat {
    if events == [] then 0 else
    (if events[0].Outage? && Within(cfg, events[0], start) then 1 else 0) + Outages(cfg, events[1..], start)
  }

  predicate Ordered(events: seq<Event>, from: int) {
    events == [] || (from <= events[0].time && Ordered(events[1..], events[0].time))
  }

  /** A live counter has counted something. */
  predicate Counts(key: Key) {
    key.Some? ==> key.value.count >= 1
  }

  /** After a request the key always has an expiry ahead of it, however it came to lose one. */
  lemma {:induction false} AlwaysExpires(cfg: Config, key: Key, before: seq<Event>, now: int)
    requires cfg.window > 0
    ensures var k := After(cfg, key, before + [Request(now)]);
      k.Some? && k.value.expires.Some? && now < k.value.expires.value
    decreases |before|
  {
    if before == [] {
      assert [Request(now)][1..] == [];
    } else {
      assert (before + [Request(now)])[1..] == before[1..] + [Request(now)];
      AlwaysExpires(cfg, Step(cfg, key, before[0]).0, before[1..], now);
    }
  }

  // ------------------------------------------------------------ the bound

  function Room(cfg: Config, c: Counter): nat {
    if c.count >= cfg.limit then 0 else cfg.limit - c.count
  }

  /** One less than twice the limit. */
  function Ceiling(cfg: Config): nat {
    if cfg.limit == 0 then 0 else 2 * cfg.limit - 1
  }

  /** The most that can still be let through in the interval from `start`, from a key at a time. */
  function Bound(cfg: Config, key: Key, now: int, start: int): nat {
    var end := start + cfg.window;
    var k := Live(key, now);
    if now >= end then 0
    else if now < start then Ceiling(cfg)
    else if k.None? then cfg.limit
    else if k.value.expires.None? || k.value.expires.value >= end then Room(cfg, k.value)
    else Room(cfg, k.value) + cfg.limit
  }

  lemma {:induction false} BoundFalls(cfg: Config, key: Key, now: int, later: int, start: int)
    requires Counts(key) && now <= later
    ensures Bound(cfg, key, later, start) <= Bound(cfg, key, now, start)
  {
  }

  lemma {:induction false} StepWithinBound(cfg: Config, key: Key, e: Event, start: int)
    requires cfg.window > 0 && Counts(key)
    ensures var (next, ok) := Step(cfg, key, e);
      && Counts(next)
      && (if ok && !e.Outage? && Within(cfg, e, start) then 1 else 0) + Bound(cfg, next, e.time, start)
         <= Bound(cfg, key, e.time, start)
  {
  }

  lemma {:induction false} AdmittedWithinBound(cfg: Config, key: Key, now: int, events: seq<Event>, start: int)
    requires cfg.window > 0 && Counts(key) && Ordered(events, now)
    ensures Admitted(cfg, key, events, start) <= Bound(cfg, key, now, start) + Outages(cfg, events, start)
    decreases |events|
  {
    if events != [] {
      var e := events[0];
      BoundFalls(cfg, key, now, e.time, start);
      StepWithinBound(cfg, key, e, start);
      AdmittedWithinBound(cfg, Step(cfg, key, e).0, e.time, events[1..], start);
    }
  }

  /**
   From any state of the key and over any trace, an interval of one window's length lets through fewer than
   twice the limit, besides what passes while the store is out.
   */
  lemma {:induction false} FixedWindowBound(cfg: Config, key: Key, now: int, events: seq<Event>, start: int)
    requires cfg.window > 0 && Counts(key) && Ordered(events, now)
    ensures Admitted(cfg, key, events, start) <= Ceiling(cfg) + Outages(cfg, events, start)
  {
    AdmittedWithinBound(cfg, key, now, events, start);
    assert Bound(cfg, key, now, start) <= Ceiling(cfg);
  }

  // ------------------------------------------------------------ the bound is reached

  function Burst(n: nat, time: int): seq<Event> {
    if n == 0 then [] else [Request(time)] + Burst(n - 1, time)
  }

  lemma {:induction false} BurstFills(cfg: Config, c: Counter, n: nat, time: int, rest: seq<Event>, start: int)
    requires c.expires.Some? && time < c.expires.value && 1 <= c.count && c.count + n <= cfg.limit
    requires start <= time < start + cfg.window
    ensures Admitted(cfg, Some(c), Burst(n, time) + rest, start)
         == n + Admitted(cfg, Some(c.(count := c.count + n)), rest, start)
    decreases n
  {
    if n == 0 {
      assert [] + rest == rest;
    } else {
      var events := Burst(n, time) + rest;
      assert events[0] == Request(time) && events[1..] == Burst(n - 1, time) + rest;
      BurstFills(cfg, c.(count := c.count + 1), n - 1, time, rest, start);
    }
  }

  /** A request, a burst at the very end of its window, and a burst at the start of the next. */
  function WorstCase(cfg: Config): seq<Event>
    requires cfg.limit > 0
  {
    [Request(0)]
      + (Burst(cfg.limit - 1, cfg.window - 1) + ([Request(cfg.window)] + (Burst(cfg.limit - 1, cfg.window) + [])))
  }

  /** The ceiling is attained, so no smaller bound holds. */
  lemma {:induction false} BoundIsReached(cfg: Config)
    requires cfg.limit > 0 && cfg.window > 1
    ensures Admitted(cfg, None, WorstCase(cfg), cfg.window - 1) == Ceiling(cfg)
  {
    var n, w := cfg.limit - 1, cfg.window;
    var second := Burst(n, w) + [];
    var tail := [Request(w)] + second;
    var events := WorstCase(cfg);
    assert events[0] == Request(0) && events[1..] == Burst(n, w - 1) + tail;
    assert tail[0] == Request(w) && tail[1..] == second;
    BurstFills(cfg, Counter(1, Some(w)), n, w - 1, tail, w - 1);
    BurstFills(cfg, Counter(1, Some(2 * w)), n, w, [], w - 1);
  }
}
