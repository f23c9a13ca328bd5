/** What the two rate limiters guarantee over any history with a monotone clock. */
module RateLimitTheorems {
  import opened Wrappers
  import opened RateLimit

  lemma WithinSnoc(times: seq<real>, t: real, lo: real, hi: real)
    ensures Within(times + [t], lo, hi) == Within(times, lo, hi) + (if lo <= t <= hi then 1 else 0)
  {
    assert (times + [t])[..|times|] == times;
  }

  lemma {:induction false} WithinAdds(a: seq<real>, b: seq<real>, lo: real, hi: real)
    ensures Within(a + b, lo, hi) == Within(a, lo, hi) + Within(b, lo, hi)
    decreases |b|
  {
    if b == [] {
      assert a + b == a;
    } else {
      var n := |b| - 1;
      WithinAdds(a, b[..n], lo, hi);
      WithinSnoc(a + b[..n], b[n], lo, hi);
      assert a + b == (a + b[..n]) + [b[n]];
    }
  }

  lemma {:induction false} WithinShrinks(times: seq<real>, lo: real, hi: real, lo': real, hi': real)
    requires forall k :: 0 <= k < |times| && lo <= times[k] <= hi ==> lo' <= times[k] <= hi'
    ensures Within(times, lo, hi) <= Within(times, lo', hi') <= |times|
    decreases |times|
  {
    if times != [] { WithinShrinks(times[..|times| - 1], lo, hi, lo', hi'); }
  }

  lemma {:induction false} WithinAll(times: seq<real>, lo: real, hi: real)
    requires forall k :: 0 <= k < |times| ==> lo <= times[k] <= hi
    ensures Within(times, lo, hi) == |times|
    decreases |times|
  {
    if times != [] { WithinAll(times[..|times| - 1], lo, hi); }
  }

  lemma {:induction false} WithinNone(times: seq<real>, lo: real, hi: real)
    requires forall k :: 0 <= k < |times| ==> !(lo <= times[k] <= hi)
    ensures Within(times, lo, hi) == 0
    decreases |times|
  {
    if times != [] { WithinNone(times[..|times| - 1], lo, hi); }
  }

  // ------------------------------------------------------------------ the deque agrees with the full log

  /** The deque is the full log without a front part that is too old for any request from `now` on. */
  ghost predicate Tracks(window: seq<real>, log: seq<real>, cutoff: real, now: real) {
    exists n :: 0 <= n <= |log| && window == log[n..] && SplitAt(log, n, cutoff, now)
  }

  predicate SplitAt(log: seq<real>, n: nat, cutoff: real, now: real) {
    && (forall k :: 0 <= k < |log| ==> log[k] <= now)
    && (forall j, k :: 0 <= j < k < |log| ==> log[j] <= log[k])
    && (forall k :: 0 <= k < n && k < |log| ==> log[k] < cutoff)
  }

  lemma {:induction false} DropsOld(window: seq<real>, cutoff: real)
    requires forall j, k :: 0 <= j < k < |window| ==> window[j] <= window[k]
    ensures var kept := DropBefore(window, cutoff);
            |kept| <= |window| && kept == window[|window| - |kept|..]
            && (forall k :: 0 <= k < |window| - |kept| ==> window[k] < cutoff)
            && (forall k :: 0 <= k < |kept| ==> cutoff <= kept[k])
  {
    if window != [] && window[0] < cutoff { DropsOld(window[1..], cutoff); }
  }

  /** What survives the eviction is the part of the full log that is recent enough. */
  lemma KeepsRecent(window: seq<real>, log: seq<real>, n: nat, cutoff: real, last: real, lo: real) returns (m: nat)
    requires n <= |log| && window == log[n..] && SplitAt(log, n, cutoff, last) && cutoff <= lo
    ensures m <= |log| && DropBefore(window, lo) == log[m..]
    ensures forall k :: 0 <= k < m ==> log[k] < lo
    ensures forall k :: m <= k < |log| ==> lo <= log[k]
  {
    DropsOld(window, lo);
    var kept := DropBefore(window, lo);
    m := |log| - |kept|;
    hide DropBefore;
    assert window[|window| - |kept|..] == log[m..];
    forall k | 0 <= k < m ensures log[k] < lo {
      if k >= n { assert log[k] == window[k - n]; }
    }
    forall k | m <= k < |log| ensures lo <= log[k] { assert log[k] == kept[k - m]; }
  }

  lemma CountsRecent(log: seq<real>, m: nat, lo: real, now: real)
    requires m <= |log| && (forall k :: 0 <= k < m ==> log[k] < lo) && forall k :: m <= k < |log| ==> lo <= log[k] <= now
    ensures Within(log, lo, now) == |log[m..]|
  {
    hide Within;
    WithinAdds(log[..m], log[m..], lo, now);
    WithinNone(log[..m], lo, now);
    WithinAll(log[m..], lo, now);
    assert log[..m] + log[m..] == log;
  }

  lemma SlideTracks(window: seq<real>, log: seq<real>, cutoff: real, last: real, now: real, limit: Limit)
    requires Tracks(window, log, cutoff, last) && last <= now && cutoff <= now - limit.seconds
    ensures Admits(window, now, limit) <==> Within(log, now - limit.seconds, now) < limit.times
    ensures Tracks(Slide(window, now, limit), if Admits(window, now, limit) then log + [now] else log,
                   now - limit.seconds, now)
  {
    hide Within;
    hide SplitAt;
    hide DropBefore;
    var n :| 0 <= n <= |log| && window == log[n..] && SplitAt(log, n, cutoff, last);
    var lo := now - limit.seconds;
    var m := KeepsRecent(window, log, n, cutoff, last, lo);
    NoneLater(log, n, cutoff, last, now);
    CountsRecent(log, m, lo, now);
    SplitsOn(log, n, cutoff, m, lo, last, now);
    Extended(log, m, lo, now);
  }

  lemma NoneLater(log: seq<real>, n: nat, cutoff: real, last: real, now: real)
    requires SplitAt(log, n, cutoff, last) && last <= now
    ensures forall k :: 0 <= k < |log| ==> log[k] <= now
  {
  }

  lemma Extended(log: seq<real>, m: nat, lo: real, now: real)
    requires m <= |log| && SplitAt(log, m, lo, now) && SplitAt(log + [now], m, lo, now)
    ensures Tracks(log[m..], log, lo, now) && Tracks(log[m..] + [now], log + [now], lo, now)
  {
    hide SplitAt;
    assert log[m..] + [now] == (log + [now])[m..];
  }

  lemma SplitsOn(log: seq<real>, n: nat, cutoff: real, m: nat, lo: real, last: real, now: real)
    requires m <= |log| && SplitAt(log, n, cutoff, last) && last <= now && forall k :: 0 <= k < m ==> log[k] < lo
    ensures SplitAt(log, m, lo, now) && SplitAt(log + [now], m, lo, now)
  {
  }

  /** One more request, seen from one key. */
  lemma NextRequest(history: seq<Request>, limits: string -> Limit, key: string)
    requires history != []
    ensures var r := history[|history| - 1];
            var before := history[..|history| - 1];
            var window := WindowOf(Windows(before, limits), key);
            && WindowOf(Windows(history, limits), key) == (if r.key == key then Slide(window, r.now, limits(key)) else window)
            && MemoryLog(history, limits, key) ==
               MemoryLog(before, limits, key) + (if r.key == key && Admits(window, r.now, limits(key)) then [r.now] else [])
            && (r.key == key ==> (LastInMemory(history, limits) <==> Admits(window, r.now, limits(key))))
  {
    hide Slide;
    hide Admits;
  }

  lemma {:induction false} DequeTracksLog(history: seq<Request>, limits: string -> Limit, key: string, now: real)
    requires Monotone(history) && forall k :: 0 <= k < |history| ==> history[k].now <= now
    ensures Tracks(WindowOf(Windows(history, limits), key), MemoryLog(history, limits, key),
                   now - limits(key).seconds, now)
    decreases |history|
  {
    hide Tracks;
    hide Slide;
    hide Admits;
    hide WindowOf;
    if history == [] {
      NothingTracked(now - limits(key).seconds, now);
      assert WindowOf(Windows(history, limits), key) == [] by { NoWindow(limits, key); }
    } else {
      var n := |history| - 1;
      var r := history[n];
      DequeTracksLog(history[..n], limits, key, r.now);
      DequeStep(history, limits, key, now);
    }
  }

  lemma DequeStep(history: seq<Request>, limits: string -> Limit, key: string, now: real)
    requires history != [] && history[|history| - 1].now <= now
    requires var before := history[..|history| - 1];
             var last := history[|history| - 1].now;
             Tracks(WindowOf(Windows(before, limits), key), MemoryLog(before, limits, key), last - limits(key).seconds, last)
    ensures Tracks(WindowOf(Windows(history, limits), key), MemoryLog(history, limits, key),
                   now - limits(key).seconds, now)
  {
    hide Tracks;
    hide Slide;
    hide Admits;
    hide WindowOf;
    hide Windows;
    hide MemoryLog;
    hide LastInMemory;
    var r := history[|history| - 1];
    var before := history[..|history| - 1];
    var window := WindowOf(Windows(before, limits), key);
    var log := MemoryLog(before, limits, key);
    NextRequest(history, limits, key);
    if r.key == key {
      SlideTracks(window, log, r.now - limits(key).seconds, r.now, r.now, limits(key));
    }
    assert log + [] == log;
    TracksLater(WindowOf(Windows(history, limits), key), MemoryLog(history, limits, key),
                r.now - limits(key).seconds, r.now, now - limits(key).seconds, now);
  }

  lemma NoWindow(limits: string -> Limit, key: string)
    ensures WindowOf(Windows([], limits), key) == []
  {
  }

  lemma NothingTracked(cutoff: real, now: real)
    ensures Tracks([], [], cutoff, now)
  {
    var log: seq<real> := [];
    assert log == log[0..] && SplitAt(log, 0, cutoff, now);
  }

  lemma TracksLater(window: seq<real>, log: seq<real>, cutoff: real, now: real, cutoff': real, now': real)
    requires Tracks(window, log, cutoff, now) && cutoff <= cutoff' && now <= now'
    ensures Tracks(window, log, cutoff', now')
  {
    var n :| 0 <= n <= |log| && window == log[n..] && SplitAt(log, n, cutoff, now);
    assert SplitAt(log, n, cutoff', now');
  }

  /** The limiter decides as if it kept everything: a request is let through exactly when fewer than `times` requests of
      its key were let through in the closed interval of `seconds` that ends now. */
  lemma EvictionChangesNoDecision(history: seq<Request>, limits: string -> Limit)
    requires history != [] && Monotone(history)
    ensures var r := history[|history| - 1];
            var limit := limits(r.key);
            LastInMemory(history, limits) <==>
            Within(MemoryLog(history[..|history| - 1], limits, r.key), r.now - limit.seconds, r.now) < limit.times
  {
    hide Tracks;
    hide Slide;
    hide Admits;
    hide Within;
    var r := history[|history| - 1];
    var before := history[..|history| - 1];
    DequeTracksLog(before, limits, r.key, r.now);
    NextRequest(history, limits, r.key);
    hide Windows;
    hide MemoryLog;
    hide LastInMemory;
    SlideTracks(WindowOf(Windows(before, limits), r.key), MemoryLog(before, limits, r.key),
                r.now - limits(r.key).seconds, r.now, r.now, limits(r.key));
  }

  /** However many requests come, no closed interval of length `seconds` ever holds more than `times` let through. */
  lemma {:induction false} SlidingWindowHolds(history: seq<Request>, limits: string -> Limit, key: string, lo: real)
    requires Monotone(history) && 0 <= limits(key).times
    ensures Within(MemoryLog(history, limits, key), lo, lo + limits(key).seconds) <= limits(key).times
    decreases |history|
  {
    hide LastInMemory;
    if history != [] {
      var n := |history| - 1;
      var r := history[n];
      var before := history[..n];
      var log := MemoryLog(before, limits, key);
      var hi := lo + limits(key).seconds;
      SlidingWindowHolds(before, limits, key, lo);
      WithinSnoc(log, r.now, lo, hi);
      if r.key == key && LastInMemory(history, limits) && lo <= r.now <= hi {
        EvictionChangesNoDecision(history, limits);
        LogBounded(before, limits, key, r.now);
        WithinShrinks(log, lo, hi, r.now - limits(key).seconds, r.now);
      } else {
        assert log + [] == log;
      }
    }
    hide Within;
    hide Monotone;
  }

  lemma LogBounded(history: seq<Request>, limits: string -> Limit, key: string, now: real)
    requires Monotone(history) && forall k :: 0 <= k < |history| ==> history[k].now <= now
    ensures forall k :: 0 <= k < |MemoryLog(history, limits, key)| ==> MemoryLog(history, limits, key)[k] <= now
  {
    DequeTracksLog(history, limits, key, now);
  }

  // ------------------------------------------------------------------ the fixed window

  /** What was let through before the current counter was created, and since. */
  datatype Ledger = Ledger(prior: seq<real>, current: seq<real>)

  ghost predicate Accounts(l: Ledger, counter: Option<Counter>, limit: Limit, now: real)
    requires 1 <= limit.times
  {
    var life := TimeToLive(limit.seconds) as real;
    if counter.None? then l.prior == [] && l.current == []
    else
      var start := counter.value.until - life;
      && start <= now && 1 <= counter.value.count
      && |l.current| == (if counter.value.count <= limit.times then counter.value.count else limit.times)
      && l.current[0] == start
      && (forall k :: 0 <= k < |l.current| ==> start <= l.current[k] <= now && l.current[k] < counter.value.until)
      && (forall k :: 0 <= k < |l.prior| ==> l.prior[k] < start)
      && Spent(l.prior, start, life, limit.times)
  }

  /** A run of `times` lettings-through before `start` reaches back at least one whole life. */
  ghost predicate Spent(prior: seq<real>, start: real, life: real, times: int) {
    forall lo :: Within(prior, lo, start) >= times ==> lo + life <= start
  }

  lemma FirstCounter(now: real, limit: Limit)
    requires 1 <= limit.times && 0.0 <= limit.seconds
    ensures Spent([], now, TimeToLive(limit.seconds) as real, limit.times)
  {
  }

  /** A counter lives longer than the interval it limits. */
  lemma OutlivesInterval(seconds: real)
    requires 0.0 <= seconds
    ensures seconds < TimeToLive(seconds) as real
  {
  }

  /** One request against the counter: what was let through, and the ledger. */
  function Booked(l: Ledger, counter: Option<Counter>, now: real, limit: Limit): Ledger {
    if counter.Some? && now < counter.value.until
    then l.(current := l.current + (if counter.value.count + 1 <= limit.times then [now] else []))
    else Ledger(l.prior + l.current, [now])
  }

  lemma BookedAccounts(l: Ledger, counter: Option<Counter>, last: real, now: real, limit: Limit)
    requires 1 <= limit.times && 0.0 <= limit.seconds && Accounts(l, counter, limit, last) && last <= now
    ensures Accounts(Booked(l, counter, now, limit), Some(Increment(counter, now, limit)), limit, now)
  {
    hide Within;
    hide Spent;
    var life := TimeToLive(limit.seconds) as real;
    OutlivesInterval(limit.seconds);
    hide TimeToLive;
    if counter.Some? && now >= counter.value.until {
      var start := counter.value.until - life;
      WindowSpent(l, start, life, limit.times, now);
    } else if counter.None? {
      assert l.prior + l.current == [];
      FirstCounter(now, limit);
    }
  }

  /** When a counter dies, its own window is spent: only from its very first request on does it hold `times`. */
  lemma WindowSpent(l: Ledger, start: real, life: real, times: int, now: real)
    requires 1 <= times && |l.current| <= times && l.current != [] && l.current[0] == start && start + life <= now
    requires forall k :: 0 <= k < |l.prior| ==> l.prior[k] < start
    ensures Spent(l.prior + l.current, now, life, times)
  {
    forall lo | Within(l.prior + l.current, lo, now) >= times ensures lo + life <= now {
      if lo > start { FirstMissed(l, start, lo, now); }
    }
    hide Within;
  }

  lemma FirstMissed(l: Ledger, start: real, lo: real, now: real)
    requires l.current != [] && l.current[0] == start < lo && forall k :: 0 <= k < |l.prior| ==> l.prior[k] < start
    ensures Within(l.prior + l.current, lo, now) <= |l.current| - 1
  {
    hide Within;
    var rest := l.current[1..];
    assert [start] + rest == l.current;
    WithinAdds(l.prior, l.current, lo, now);
    WithinNone(l.prior, lo, now);
    WithinAdds([start], rest, lo, now);
    WithinNone([start], lo, now);
    WithinShrinks(rest, lo, now, lo, now);
  }

  /** In any interval shorter than a life, at most 2 * times - 1 of an accounted ledger. */
  lemma AccountsBound(l: Ledger, counter: Option<Counter>, limit: Limit, now: real, lo: real)
    requires 1 <= limit.times && 0.0 <= limit.seconds && Accounts(l, counter, limit, now)
    ensures Within(l.prior + l.current, lo, lo + limit.seconds) <= Within(l.prior, lo, lo + limit.seconds) + limit.times
    ensures lo + limit.seconds >= now ==> Within(l.prior + l.current, lo, lo + limit.seconds) <= 2 * limit.times - 1
  {
    var hi := lo + limit.seconds;
    var life := TimeToLive(limit.seconds) as real;
    OutlivesInterval(limit.seconds);
    hide TimeToLive;
    hide Within;
    WithinAdds(l.prior, l.current, lo, hi);
    WithinShrinks(l.current, lo, hi, lo, hi);
    if counter.Some? && hi >= now {
      var start := counter.value.until - life;
      WithinShrinks(l.prior, lo, hi, lo, start);
      assert Within(l.prior, lo, start) >= limit.times ==> lo + life <= start;
    }
    hide Accounts;
  }

  /** The ledger of one key after a history. */
  function LedgerOf(history: seq<Request>, limits: string -> Limit, key: string): Ledger
    decreases |history|
  {
    if history == [] then Ledger([], [])
    else
      var r := history[|history| - 1];
      var before := history[..|history| - 1];
      var l := LedgerOf(before, limits, key);
      if r.key == key then Booked(l, CounterOf(Counters(before, limits), key), r.now, limits(key)) else l
  }

  lemma NextCounter(history: seq<Request>, limits: string -> Limit, key: string)
    requires history != [] && 1 <= limits(key).times
    ensures var r := history[|history| - 1];
            var before := history[..|history| - 1];
            var counter := CounterOf(Counters(before, limits), key);
            && CounterOf(Counters(history, limits), key) ==
               (if r.key == key then Some(Increment(counter, r.now, limits(key))) else counter)
            && RedisLog(history, limits, key) == RedisLog(before, limits, key)
               + (if r.key == key && Increment(counter, r.now, limits(key)).count <= limits(key).times then [r.now] else [])
  {
    hide Increment;
  }

  lemma {:induction false} LedgerAccounts(history: seq<Request>, limits: string -> Limit, key: string, now: real)
    requires Monotone(history) && forall k :: 0 <= k < |history| ==> history[k].now <= now
    requires 1 <= limits(key).times && 0.0 <= limits(key).seconds
    ensures var l := LedgerOf(history, limits, key);
            RedisLog(history, limits, key) == l.prior + l.current
            && Accounts(l, CounterOf(Counters(history, limits), key), limits(key), now)
    decreases |history|
  {
    hide Accounts;
    hide Increment;
    hide CounterOf;
    if history == [] {
      NothingBooked(limits, key, now);
    } else {
      var n := |history| - 1;
      var r := history[n];
      var before := history[..n];
      var l := LedgerOf(before, limits, key);
      var counter := CounterOf(Counters(before, limits), key);
      LedgerAccounts(before, limits, key, r.now);
      NextCounter(history, limits, key);
      hide Counters;
      hide RedisLog;
      if r.key == key {
        BookedAccounts(l, counter, r.now, r.now, limits(key));
        BookedLog(l, counter, r.now, limits(key));
      }
      AccountsLater(LedgerOf(history, limits, key), CounterOf(Counters(history, limits), key), limits(key), r.now, now);
    }
  }

  lemma NothingBooked(limits: string -> Limit, key: string, now: real)
    requires 1 <= limits(key).times
    ensures RedisLog([], limits, key) == [] + []
    ensures Accounts(Ledger([], []), CounterOf(Counters([], limits), key), limits(key), now)
  {
  }

  lemma BookedLog(l: Ledger, counter: Option<Counter>, now: real, limit: Limit)
    requires 1 <= limit.times
    ensures var l' := Booked(l, counter, now, limit);
            l'.prior + l'.current ==
            l.prior + l.current + (if Increment(counter, now, limit).count <= limit.times then [now] else [])
  {
  }

  lemma AccountsLater(l: Ledger, counter: Option<Counter>, limit: Limit, now: real, now': real)
    requires 1 <= limit.times && Accounts(l, counter, limit, now) && now <= now'
    ensures Accounts(l, counter, limit, now')
  {
    hide Within;
    hide Spent;
    hide TimeToLive;
  }

  /** The fixed window lets through at most 2 * times - 1 requests in any closed interval of length `seconds`, which is one
      better than the doubling a fixed window is usually charged with: a counter outlives the interval, so the window
      that was full before the interval cannot have its first request inside it. */
  lemma {:induction false} FixedWindowHolds(history: seq<Request>, limits: string -> Limit, key: string, lo: real)
    requires Monotone(history) && 1 <= limits(key).times && 0.0 <= limits(key).seconds
    ensures Within(RedisLog(history, limits, key), lo, lo + limits(key).seconds) <= 2 * limits(key).times - 1
    decreases |history|
  {
    hide Accounts;
    hide Within;
    if history == [] {
      WithinNone([], lo, lo + limits(key).seconds);
    } else {
      var n := |history| - 1;
      var r := history[n];
      var hi := lo + limits(key).seconds;
      var l := LedgerOf(history, limits, key);
      FixedWindowHolds(history[..n], limits, key, lo);
      LedgerAccounts(history, limits, key, r.now);
      NextCounter(history, limits, key);
      hide Counters;
      hide RedisLog;
      AccountsBound(l, CounterOf(Counters(history, limits), key), limits(key), r.now, lo);
      if hi < r.now {
        var log := RedisLog(history[..n], limits, key);
        WithinSnoc(log, r.now, lo, hi);
        assert log + [] == log;
      }
    }
  }

  /** When the window that the newest request of a key fell into was opened: by the first request at or after the end of the
      window before. */
  function Opened(history: seq<Request>, limits: string -> Limit, key: string): Option<real>
    decreases |history|
  {
    if history == [] then None
    else
      var r := history[|history| - 1];
      var before := Opened(history[..|history| - 1], limits, key);
      if r.key != key || (before.Some? && r.now < before.value + Life(limits(key).seconds)) then before else Some(r.now)
  }

  /** A window lasts its seconds, fractions dropped, and one more. */
  function Life(seconds: real): real { seconds.Floor as real + 1.0 }

  /** How many requests of a key came at `lo` or later, let through or not. */
  function Since(history: seq<Request>, key: string, lo: real): nat
    decreases |history|
  {
    if history == [] then 0
    else
      var r := history[|history| - 1];
      Since(history[..|history| - 1], key, lo) + (if r.key == key && lo <= r.now then 1 else 0)
  }

  lemma {:induction false} NoneSince(history: seq<Request>, key: string, lo: real)
    requires forall k :: 0 <= k < |history| && history[k].key == key ==> history[k].now < lo
    ensures Since(history, key, lo) == 0
    decreases |history|
  {
    if history != [] { NoneSince(history[..|history| - 1], key, lo); }
  }

  /** The counter of a key counts the requests of its window, and dies with it. */
  ghost predicate Mirrors(history: seq<Request>, limits: string -> Limit, key: string, counter: Option<Counter>) {
    match Opened(history, limits, key)
    case None => counter.None? && forall k :: 0 <= k < |history| ==> history[k].key != key
    case Some(start) =>
      && counter == Some(Counter(Since(history, key, start), start + Life(limits(key).seconds)))
      && forall k :: 0 <= k < |history| && history[k].key == key ==> history[k].now < start + Life(limits(key).seconds)
  }

  lemma LifeIsLeft(seconds: real)
    requires 0.0 <= seconds
    ensures TimeToLive(seconds) as real == Life(seconds) && seconds < Life(seconds) <= seconds + 1.0
  {
  }

  lemma {:induction false} CounterMirrors(history: seq<Request>, limits: string -> Limit, key: string)
    requires Monotone(history) && 0.0 <= limits(key).seconds
    ensures Mirrors(history, limits, key, CounterOf(Counters(history, limits), key))
    decreases |history|
  {
    hide Increment;
    LifeIsLeft(limits(key).seconds);
    hide Life;
    hide TimeToLive;
    if history != [] {
      var n := |history| - 1;
      var before := history[..n];
      CounterMirrors(before, limits, key);
      hide Mirrors;
      hide CounterOf;
      MirrorsMore(history, limits, key, CounterOf(Counters(before, limits), key));
      CounterMoves(history, limits, key);
    }
  }

  lemma CounterMoves(history: seq<Request>, limits: string -> Limit, key: string)
    requires history != []
    ensures var r := history[|history| - 1];
            var counter := CounterOf(Counters(history[..|history| - 1], limits), key);
            CounterOf(Counters(history, limits), key) == if r.key == key then Some(Increment(counter, r.now, limits(key))) else counter
  {
    hide Increment;
  }

  lemma MirrorsMore(history: seq<Request>, limits: string -> Limit, key: string, counter: Option<Counter>)
    requires history != [] && Monotone(history) && 0.0 <= limits(key).seconds
    requires Mirrors(history[..|history| - 1], limits, key, counter)
    ensures var r := history[|history| - 1];
            Mirrors(history, limits, key, if r.key == key then Some(Increment(counter, r.now, limits(key))) else counter)
  {
    var n := |history| - 1;
    var before := history[..n];
    var r := history[n];
    LifeIsLeft(limits(key).seconds);
    hide Life;
    hide TimeToLive;
    assert forall k :: 0 <= k < n ==> before[k] == history[k];
    if r.key == key && !(counter.Some? && r.now < counter.value.until) { NoneSince(before, key, r.now); }
    if r.key == key && counter.Some? && r.now < counter.value.until { OpenedEarlier(before, limits, key, r.now); }
  }

  lemma {:induction false} OpenedEarlier(history: seq<Request>, limits: string -> Limit, key: string, now: real)
    requires Monotone(history) && forall k :: 0 <= k < |history| ==> history[k].now <= now
    ensures Opened(history, limits, key).Some? ==> Opened(history, limits, key).value <= now
    decreases |history|
  {
    hide Life;
    if history != [] { OpenedEarlier(history[..|history| - 1], limits, key, now); }
  }

  /** The fixed window decides exactly so: a request is let through if and only if no more than `times` requests of its key, itself
      included, have come since its window was opened. */
  lemma FixedWindowDecides(history: seq<Request>, limits: string -> Limit)
    requires history != [] && Monotone(history) && 0.0 <= limits(history[|history| - 1].key).seconds
    ensures var key := history[|history| - 1].key;
            Opened(history, limits, key).Some?
            && (LastInRedis(history, limits) <==> Since(history, key, Opened(history, limits, key).value) <= limits(key).times)
  {
    var key := history[|history| - 1].key;
    CounterMirrors(history, limits, key);
    CounterMoves(history, limits, key);
    hide Increment;
    hide Life;
    hide Since;
    hide Counters;
  }

  /** With no allowance nothing is let through. */
  lemma {:induction false} NoAllowance(history: seq<Request>, limits: string -> Limit, key: string)
    requires limits(key).times <= 0
    ensures RedisLog(history, limits, key) == [] && MemoryLog(history, limits, key) == []
    decreases |history|
  {
    if history != [] { NoAllowance(history[..|history| - 1], limits, key); }
    hide Windows;
    hide Counters;
    hide DropBefore;
  }

  lemma NextLog(before: seq<Request>, r: Request, limits: string -> Limit)
    requires 1 <= limits(r.key).times
    ensures var counter := Increment(CounterOf(Counters(before, limits), r.key), r.now, limits(r.key));
            CounterOf(Counters(before + [r], limits), r.key) == Some(counter)
            && RedisLog(before + [r], limits, r.key) ==
               RedisLog(before, limits, r.key) + (if counter.count <= limits(r.key).times then [r.now] else [])
  {
    var history := before + [r];
    assert history[..|history| - 1] == before;
    NextCounter(history, limits, r.key);
    hide Counters;
    hide RedisLog;
  }

  lemma TightCount(log: seq<real>)
    requires log == [0.0, 10.5, 11.0, 11.25]
    ensures Within(log, 10.5, 20.5) == 3
  {
    hide Within;
    WithinAdds([0.0], [10.5, 11.0, 11.25], 10.5, 20.5);
    WithinNone([0.0], 10.5, 20.5);
    WithinAll([10.5, 11.0, 11.25], 10.5, 20.5);
    assert [0.0] + [10.5, 11.0, 11.25] == log;
  }

  lemma TightLog(limits: string -> Limit)
    requires limits("k") == Limit(2, 10.0)
    ensures RedisLog([Request("k", 0.0)] + [Request("k", 10.5)] + [Request("k", 11.0)] + [Request("k", 11.25)], limits, "k")
         == [0.0] + [10.5] + [11.0] + [11.25]
  {
    var h1 := [Request("k", 0.0)];
    var h2 := h1 + [Request("k", 10.5)];
    var h3 := h2 + [Request("k", 11.0)];
    assert TimeToLive(10.0) == 11;
    hide TimeToLive;
    NextLog([], Request("k", 0.0), limits);
    NextLog(h1, Request("k", 10.5), limits);
    NextLog(h2, Request("k", 11.0), limits);
    NextLog(h3, Request("k", 11.25), limits);
    assert [] + h1 == h1;
    Blank(limits);
    hide Counters;
    hide RedisLog;
    hide CounterOf;
  }

  lemma Blank(limits: string -> Limit)
    ensures CounterOf(Counters([], limits), "k") == None && RedisLog([], limits, "k") == []
  {
  }

  /** The bound is met: two per ten seconds, and three are let through within ten seconds. */
  lemma FixedWindowIsTight(limits: string -> Limit)
    requires limits("k") == Limit(2, 10.0)
    ensures var history := [Request("k", 0.0), Request("k", 10.5), Request("k", 11.0), Request("k", 11.25)];
            Monotone(history) && Within(RedisLog(history, limits, "k"), 10.5, 10.5 + 10.0) == 3
  {
    hide RedisLog;
    hide Within;
    TightLog(limits);
    assert [Request("k", 0.0)] + [Request("k", 10.5)] + [Request("k", 11.0)] + [Request("k", 11.25)]
        == [Request("k", 0.0), Request("k", 10.5), Request("k", 11.0), Request("k", 11.25)];
    assert [0.0] + [10.5] + [11.0] + [11.25] == [0.0, 10.5, 11.0, 11.25];
    TightCount([0.0, 10.5, 11.0, 11.25]);
  }
}
