/** Rate limiting per key: an evicting deque of accepted times in memory, or a counter with a time-to-live in Redis. */
module RateLimit {
  import opened Wrappers

  /** One request for a key. Each key has one limit: at most `times` in `seconds`. */
  datatype Limit = Limit(times: int, seconds: real)

  datatype Request = Request(key: string, now: real)

  // ------------------------------------------------------------------ the deque

  function DropBefore(window: seq<real>, cutoff: real): seq<real> {
    if window != [] && window[0] < cutoff then DropBefore(window[1..], cutoff) else window
  }

  function WindowOf(windows: map<string, seq<real>>, key: string): seq<real> {
    if key in windows then windows[key] else []
  }

  predicate Admits(window: seq<real>, now: real, limit: Limit) {
    |DropBefore(window, now - limit.seconds)| < limit.times
  }

  function Slide(window: seq<real>, now: real, limit: Limit): seq<real> {
    var kept := DropBefore(window, now - limit.seconds);
    if |kept| < limit.times then kept + [now] else kept
  }

  class MemoryLimiter {
    var windows: map<string, seq<real>>

    constructor ()
      ensures windows == map[]
    {
      windows := map[];
    }

    method Check(key: string, now: real, limit: Limit) returns (allowed: bool)
      modifies this
      ensures allowed == Admits(WindowOf(old(windows), key), now, limit)
      ensures windows == old(windows)[key := Slide(WindowOf(old(windows), key), now, limit)]
    {
      if key !in windows { windows := windows[key := []]; }
      var cutoff := now - limit.seconds;
      var window := windows[key];
      ghost var was := window;
      while window != [] && window[0] < cutoff
        invariant DropBefore(window, cutoff) == DropBefore(was, cutoff)
        decreases |window|
      {
        window := window[1..];
      }
      windows := windows[key := window];
      if |window| >= limit.times { return false; }
      windows := windows[key := window + [now]];
      return true;
    }

    /** A history of requests from the start, each decided as the theorems say. */
    method Replay(history: seq<Request>, limits: string -> Limit) returns (allowed: seq<bool>)
      requires windows == map[]
      modifies this
      ensures windows == Windows(history, limits) && |allowed| == |history|
      ensures forall k :: 0 <= k < |history| ==> allowed[k] == LastInMemory(history[..k + 1], limits)
    {
      hide Admits;
      hide Slide;
      allowed := [];
      for k := 0 to |history|
        invariant windows == Windows(history[..k], limits) && |allowed| == k
        invariant forall j :: 0 <= j < k ==> allowed[j] == LastInMemory(history[..j + 1], limits)
      {
        assert history[..k + 1][..k] == history[..k];
        var r := history[k];
        var ok := Check(r.key, r.now, limits(r.key));
        allowed := allowed + [ok];
      }
      assert history[..|history|] == history;
    }
  }

  // ------------------------------------------------------------------ the counter

  /** A Redis counter that disappears at `until`. */
  datatype Counter = Counter(count: nat, until: real)

  /** Seconds a counter lives: `int(seconds) + 1`, truncating toward zero. */
  function TimeToLive(seconds: real): int {
    (if seconds >= 0.0 then seconds.Floor else -((-seconds).Floor)) + 1
  }

  /** INCR on a missing or expired counter starts at 1; EXPIRE NX then gives it its life, once. */
  function Increment(counter: Option<Counter>, now: real, limit: Limit): Counter {
    if counter.Some? && now < counter.value.until then counter.value.(count := counter.value.count + 1)
    else Counter(1, now + TimeToLive(limit.seconds) as real)
  }

  function CounterOf(counters: map<string, Counter>, key: string): Option<Counter> {
    if key in counters then Some(counters[key]) else None
  }

  class RedisLimiter {
    var counters: map<string, Counter>

    constructor ()
      ensures counters == map[]
    {
      counters := map[];
    }

    method Check(key: string, now: real, limit: Limit) returns (allowed: bool)
      modifies this
      ensures var counter := Increment(CounterOf(old(counters), key), now, limit);
              counters == old(counters)[key := counter] && allowed == (counter.count <= limit.times)
    {
      var count := 0;
      var until := None;
      if key in counters && now < counters[key].until {
        count := counters[key].count;
        until := Some(counters[key].until);
      }
      count := count + 1;
      if until.None? { until := Some(now + TimeToLive(limit.seconds) as real); }
      counters := counters[key := Counter(count, until.value)];
      return count <= limit.times;
    }

    method Replay(history: seq<Request>, limits: string -> Limit) returns (allowed: seq<bool>)
      requires counters == map[]
      modifies this
      ensures counters == Counters(history, limits) && |allowed| == |history|
      ensures forall k :: 0 <= k < |history| ==> allowed[k] == LastInRedis(history[..k + 1], limits)
    {
      hide Increment;
      allowed := [];
      for k := 0 to |history|
        invariant counters == Counters(history[..k], limits) && |allowed| == k
        invariant forall j :: 0 <= j < k ==> allowed[j] == LastInRedis(history[..j + 1], limits)
      {
        assert history[..k + 1][..k] == history[..k];
        var r := history[k];
        var ok := Check(r.key, r.now, limits(r.key));
        allowed := allowed + [ok];
      }
      assert history[..|history|] == history;
    }
  }

  // ------------------------------------------------------------------ histories

  predicate Monotone(history: seq<Request>) {
    forall i, j :: 0 <= i < j < |history| ==> history[i].now <= history[j].now
  }

  /** The deques after a history. */
  function Windows(history: seq<Request>, limits: string -> Limit): map<string, seq<real>>
    decreases |history|
  {
    if history == [] then map[]
    else
      var r := history[|history| - 1];
      var before := Windows(history[..|history| - 1], limits);
      before[r.key := Slide(WindowOf(before, r.key), r.now, limits(r.key))]
  }

  function Counters(history: seq<Request>, limits: string -> Limit): map<string, Counter>
    decreases |history|
  {
    if history == [] then map[]
    else
      var r := history[|history| - 1];
      var before := Counters(history[..|history| - 1], limits);
      before[r.key := Increment(CounterOf(before, r.key), r.now, limits(r.key))]
  }

  /** Whether each limiter lets the last request through. */
  predicate LastInMemory(history: seq<Request>, limits: string -> Limit)
    requires history != []
  {
    var r := history[|history| - 1];
    Admits(WindowOf(Windows(history[..|history| - 1], limits), r.key), r.now, limits(r.key))
  }

  predicate LastInRedis(history: seq<Request>, limits: string -> Limit)
    requires history != []
  {
    var r := history[|history| - 1];
    Increment(CounterOf(Counters(history[..|history| - 1], limits), r.key), r.now, limits(r.key)).count <= limits(r.key).times
  }

  /** Every time a key was let through, from the start of the history: nothing is ever dropped from this log. */
  function MemoryLog(history: seq<Request>, limits: string -> Limit, key: string): seq<real>
    decreases |history|
  {
    if history == [] then []
    else
      var r := history[|history| - 1];
      MemoryLog(history[..|history| - 1], limits, key)
      + (if r.key == key && LastInMemory(history, limits) then [r.now] else [])
  }

  function RedisLog(history: seq<Request>, limits: string -> Limit, key: string): seq<real>
    decreases |history|
  {
    if history == [] then []
    else
      var r := history[|history| - 1];
      RedisLog(history[..|history| - 1], limits, key)
      + (if r.key == key && LastInRedis(history, limits) then [r.now] else [])
  }

  /** How many of these times lie in the closed interval [lo, hi]. */
  function Within(times: seq<real>, lo: real, hi: real): nat
    decreases |times|
  {
    if times == [] then 0
    else Within(times[..|times| - 1], lo, hi) + (if lo <= times[|times| - 1] <= hi then 1 else 0)
  }
}
