/** Decorators written as callable classes: a call counter, a repeater, a memoising cache,
    a sliding-window rate limiter and a role check. */
module DecoratorCallables {
  import opened Wrappers
  import Seqs
  import Strings

  /** `greet(name)`, the example function the counter wraps: the name between the greeting
      "Hello, " and an exclamation mark, so it can be read back from the text. */
  function Greet(name: string): (r: string)
    ensures |r| == |name| + 8
    ensures r[..7] == "Hello, " && r[|r| - 1] == '!'
    ensures r[7..|r| - 1] == name
  {
    "Hello, " + name + "!"
  }

  /** `@CountCalls`: forwards every call to `func` and counts the calls since construction
      or the last `reset`. */
  class CountCalls<A, R> {
    const func: A -> R
    var count: nat

    constructor (func: A -> R)
      ensures this.func == func && count == 0
    {
      this.func := func;
      count := 0;
    }

    /** `__call__`: one more call, answered by `func`. */
    method Call(a: A) returns (r: R)
      modifies this
      ensures r == func(a) && count == old(count) + 1
    {
      count := count + 1;
      r := func(a);
    }

    /** `reset()`. */
    method Reset()
      modifies this
      ensures count == 0
    {
      count := 0;
    }
  }

  /** Three greetings through a fresh counter, then a reset. */
  method GreetExample() returns (r1: string, r2: string, r3: string, total: nat, afterReset: nat)
    ensures r1 == "Hello, " + "Alice" + "!" && r2 == "Hello, " + "Bob" + "!" && r3 == "Hello, " + "Charlie" + "!"
    ensures total == 3 && afterReset == 0
  {
    var greet := new CountCalls(Greet);
    r1 := greet.Call("Alice");
    r2 := greet.Call("Bob");
    r3 := greet.Call("Charlie");
    total := greet.count;
    greet.Reset();
    afterReset := greet.count;
  }

  /** `@Repeat(times)`: the wrapper calls `func` `times` times and collects the results. */
  class Repeat {
    const times: int

    constructor (times: int)
      ensures this.times == times
    {
      this.times := times;
    }

    /** The wrapper `Repeat(times)(func)` applied to `a`; `range(times)` is empty when `times <= 0`. */
    method Wrapper<A, R>(func: A -> R, a: A) returns (results: seq<R>)
      ensures |results| == if times > 0 then times else 0
      ensures forall i :: 0 <= i < |results| ==> results[i] == func(a)
    {
      results := [];
      var n := if times > 0 then times else 0;
      for i := 0 to n
        invariant |results| == i
        invariant forall j :: 0 <= j < i ==> results[j] == func(a)
      {
        results := results + [func(a)];
      }
    }
  }

  function SayHi(u: ()): string {
    "Hi!"
  }

  /** `@Repeat(times=3)` on `say_hi` returns three greetings. */
  method SayHiExample() returns (results: seq<string>)
    ensures results == ["Hi!", "Hi!", "Hi!"]
  {
    var repeat := new Repeat(3);
    results := repeat.Wrapper(SayHi, ());
  }

  /** `@Memoize`: results are kept per argument, and `func` runs only on a cache miss. */
  class Memoize<A(==), R> {
    const func: A -> R
    var cache: map<A, R>
    /** The arguments `func` was run for, in order (the "Computing for" lines). */
    var computations: seq<A>
    /** Where the computations since the last `clear_cache` begin. */
    ghost var sinceClear: nat

    /** Every cached result is `func`'s result, and since the last `clear_cache`
        `func` ran exactly once for each cached argument and never for another. */
    ghost predicate Valid()
      reads this
    {
      && sinceClear <= |computations|
      && (forall a :: a in cache ==> cache[a] == func(a))
      && (forall a :: a in cache ==> a in computations[sinceClear..])
      && (forall i :: sinceClear <= i < |computations| ==> computations[i] in cache)
      && (forall i, j :: sinceClear <= i < j < |computations| ==> computations[i] != computations[j])
    }

    constructor (func: A -> R)
      ensures Valid() && this.func == func && cache == map[] && computations == []
    {
      this.func := func;
      cache := map[];
      computations := [];
      sinceClear := 0;
    }

    /** `__call__`: a hit returns the stored result; a miss runs `func` and stores its result. */
    method Call(a: A) returns (r: R)
      requires Valid()
      modifies this
      ensures Valid() && r == func(a)
      ensures cache == old(cache)[a := r]
      ensures computations == old(computations) + if a in old(cache) then [] else [a]
    {
      if a in cache {
        r := cache[a];
        return;
      }
      r := func(a);
      computations := computations + [a];
      cache := cache[a := r];
      assert computations[sinceClear..] == old(computations[sinceClear..]) + [a];
    }

    /** `clear_cache()`: forgets every stored result. */
    method ClearCache()
      requires Valid()
      modifies this
      ensures Valid() && cache == map[] && computations == old(computations)
    {
      cache := map[];
      sinceClear := |computations|;
    }
  }

  /** The Fibonacci numbers as the decorated function defines them, for any integer. */
  function Fib(n: int): int
    decreases n
  {
    if n < 2 then n else Fib(n - 1) + Fib(n - 2)
  }

  /** The arguments a memoised `fibonacci(n)` leaves cached: `0..n`, or just `n` when `n < 2`. */
  function Reached(n: int): set<int>
    decreases n
  {
    if n < 2 then {n} else if n == 2 then {0, 1, 2} else Reached(n - 1) + {n}
  }

  lemma {:induction false} ReachedIs(n: int)
    ensures forall k :: k in Reached(n) <==> if n >= 2 then 0 <= k <= n else k == n
    decreases n
  {
    if n > 2 {
      ReachedIs(n - 1);
    }
  }

  /** The arguments `fibonacci(n)` computes, in order, when the arguments in `cached` are
      already cached. The recursive calls go through the cache too, so the second one sees
      what the first one stored. */
  function Computed(n: int, cached: set<int>): seq<int>
    decreases n
  {
    if n in cached then []
    else if n < 2 then [n]
    else [n] + Computed(n - 1, cached) + Computed(n - 2, cached + Reached(n - 1))
  }

  /** The decorated `fibonacci`: a `Memoize` instance whose function calls the instance
      itself for `n - 1` and `n - 2`. */
  class MemoFibonacci {
    var cache: map<int, int>
    /** The arguments computed, in order (the "Computing for" lines). */
    var computations: seq<int>

    ghost predicate Valid()
      reads this
    {
      GoodCache(cache)
    }

    constructor ()
      ensures Valid() && cache == map[] && computations == []
    {
      cache := map[];
      computations := [];
    }

    /** `fibonacci(n)`. */
    method Call(n: int) returns (r: int)
      requires Valid()
      modifies this
      ensures Valid() && r == Fib(n)
      ensures cache.Keys == old(cache.Keys) + Reached(n)
      ensures computations == old(computations) + Computed(n, old(cache.Keys))
      decreases n, 1
    {
      if n in cache {
        r := cache[n];
        return;
      }
      ghost var keys0, log0 := cache.Keys, computations;
      computations := computations + [n];
      if n < 2 {
        r := n;
        assert computations == log0 + Computed(n, keys0);
      } else {
        r := Body(n);
        CallBookkeeping(n, keys0, log0, cache.Keys, computations);
      }
      StoreKeepsGood(cache, n);
      cache := cache[n := r];
    }

    /** The decorated function's body for `n >= 2`: `fibonacci(n - 1) + fibonacci(n - 2)`,
        both through the cache. */
    method Body(n: int) returns (r: int)
      requires Valid() && n >= 2
      modifies this
      ensures Valid() && r == Fib(n)
      ensures cache.Keys == old(cache.Keys) + Reached(n - 1) + Reached(n - 2)
      ensures computations == old(computations) + Computed(n - 1, old(cache.Keys))
                              + Computed(n - 2, old(cache.Keys) + Reached(n - 1))
      decreases n, 0
    {
      var a := Call(n - 1);
      var b := Call(n - 2);
      r := a + b;
    }
  }

  /** How a `fibonacci(n)` call that recursed accounts for its two recursive calls. */
  lemma CallBookkeeping(n: int, keys0: set<int>, log0: seq<int>, keys: set<int>, log: seq<int>)
    requires n >= 2 && n !in keys0
    requires keys == keys0 + Reached(n - 1) + Reached(n - 2)
    requires log == log0 + [n] + Computed(n - 1, keys0) + Computed(n - 2, keys0 + Reached(n - 1))
    ensures keys + {n} == keys0 + Reached(n) && Reached(n) <= keys + {n}
    ensures log == log0 + Computed(n, keys0)
  {
    ReachedStep(n);
    assert Computed(n, keys0) == [n] + Computed(n - 1, keys0) + Computed(n - 2, keys0 + Reached(n - 1));
  }

  /** Cached values are right, and whatever a cached argument's call caches is cached too. */
  ghost predicate GoodCache(cache: map<int, int>) {
    && (forall k :: k in cache ==> cache[k] == Fib(k))
    && (forall k :: k in cache ==> Reached(k) <= cache.Keys)
  }

  /** Storing `fibonacci(n)` once everything below it that it needs is cached keeps the cache good. */
  lemma StoreKeepsGood(cache: map<int, int>, n: int)
    requires GoodCache(cache) && Reached(n) <= cache.Keys + {n}
    ensures GoodCache(cache[n := Fib(n)])
    ensures cache[n := Fib(n)].Keys == cache.Keys + {n}
  {
    ReachedClosed(n);
  }

  /** What `fibonacci(n)` caches is what its two recursive calls cache, plus `n`. */
  lemma ReachedStep(n: int)
    requires n >= 2
    ensures Reached(n) == Reached(n - 1) + Reached(n - 2) + {n}
  {
    ReachedIs(n);
    ReachedIs(n - 1);
    ReachedIs(n - 2);
  }

  /** Whatever a call caches caches everything its own argument's call would. */
  lemma ReachedClosed(n: int)
    ensures forall k :: k in Reached(n) ==> Reached(k) <= Reached(n)
  {
    ReachedIs(n);
    forall k | k in Reached(n) ensures Reached(k) <= Reached(n) {
      ReachedIs(k);
    }
  }

  /** Memoisation at work: a `fibonacci(n)` call computes each argument at most once, only
      arguments it ends up caching, and none that was cached before. */
  lemma {:induction false} ComputedOnce(n: int, cached: set<int>)
    ensures forall i :: 0 <= i < |Computed(n, cached)| ==>
      Computed(n, cached)[i] in Reached(n) && Computed(n, cached)[i] !in cached
    ensures forall i, j :: 0 <= i < j < |Computed(n, cached)| ==> Computed(n, cached)[i] != Computed(n, cached)[j]
    decreases n
  {
    if n !in cached && n >= 2 {
      var s1 := cached + Reached(n - 1);
      ComputedOnce(n - 1, cached);
      ComputedOnce(n - 2, s1);
      var a := Computed(n - 1, cached);
      var b := Computed(n - 2, s1);
      assert Computed(n, cached) == [n] + a + b;
      ReachedStep(n);
      ReachedIs(n - 1);
      ReachedIs(n - 2);
      forall i, j | 0 <= i < j < |[n] + a + b| ensures ([n] + a + b)[i] != ([n] + a + b)[j] {
        if i == 0 {
          assert ([n] + a + b)[j] in Reached(n - 1) || ([n] + a + b)[j] in Reached(n - 2);
        } else if i <= |a| && j > |a| {
          assert ([n] + a + b)[i] == a[i - 1] && ([n] + a + b)[j] == b[j - 1 - |a|];
        }
      }
    }
  }

  /** `[hi, hi - 1, ..., lo]`, empty when `hi < lo`. */
  function Down(hi: int, lo: int): (r: seq<int>)
    ensures |r| == if hi < lo then 0 else hi - lo + 1
    ensures forall i :: 0 <= i < |r| ==> r[i] == hi - i
    decreases hi - lo
  {
    if hi < lo then [] else [hi] + Down(hi - 1, lo)
  }

  /** On an empty cache `fibonacci(n)` for `n >= 2` computes `n + 1` values, not exponentially many. */
  lemma {:induction false} FreshFibonacci(n: int)
    requires n >= 2
    ensures Computed(n, {}) == Down(n, 0)
    decreases n
  {
    if n == 2 {
      assert Computed(1, {}) == [1];
      assert Computed(0, {} + Reached(1)) == [0];
    } else {
      FreshFibonacci(n - 1);
      assert n - 2 in {} + Reached(n - 1);
    }
  }

  /** After `fibonacci(m)`, a call `fibonacci(n)` with `n > m >= 2` computes only `n` down to `m + 1`. */
  lemma {:induction false} CachedFibonacci(n: int, m: int)
    requires 2 <= m < n
    ensures Computed(n, Reached(m)) == Down(n, m + 1)
    decreases n
  {
    ReachedIs(m);
    ReachedIs(n - 1);
    assert n !in Reached(m);
    if n == m + 1 {
      assert m in Reached(m);
      assert m - 1 in Reached(m) + Reached(m);
    } else {
      CachedFibonacci(n - 1, m);
      assert n - 2 in Reached(m) + Reached(n - 1);
    }
  }

  lemma FibTen()
    ensures Fib(5) == 5 && Fib(10) == 55
  {
    assert Fib(2) == 1 && Fib(3) == 2 && Fib(4) == 3 && Fib(5) == 5;
    assert Fib(6) == 8 && Fib(7) == 13 && Fib(8) == 21 && Fib(9) == 34;
  }

  /** The computations of the example calls, one after the other on one cache. */
  lemma FibonacciTrace()
    ensures Computed(5, {}) + Computed(5, Reached(5)) + Computed(10, Reached(5))
         == [5, 4, 3, 2, 1, 0, 10, 9, 8, 7, 6]
  {
    FreshFibonacci(5);
    CachedFibonacci(10, 5);
    assert 5 in Reached(5) by {
      ReachedIs(5);
    }
    DownFiveTen();
  }

  /** The two runs of `Down` the trace is made of, and their concatenation. */
  lemma DownFiveTen()
    ensures Down(5, 0) + [] + Down(10, 6) == [5, 4, 3, 2, 1, 0, 10, 9, 8, 7, 6]
  {
    var a, b := Down(5, 0), Down(10, 6);
    assert a == [5, 4, 3, 2, 1, 0] by {
      assert a[0] == 5 && a[1] == 4 && a[2] == 3 && a[3] == 2 && a[4] == 1 && a[5] == 0;
    }
    assert b == [10, 9, 8, 7, 6] by {
      assert b[0] == 10 && b[1] == 9 && b[2] == 8 && b[3] == 7 && b[4] == 6;
    }
  }

  /** `fib(5)`, `fib(5)` again and `fib(10)`: the second call is a pure cache hit, and the
      third computes only 10 down to 6. */
  method FibonacciExample() returns (a: int, b: int, c: int, computed: seq<int>)
    ensures a == 5 && b == 5 && c == 55
    ensures computed == [5, 4, 3, 2, 1, 0, 10, 9, 8, 7, 6]
  {
    var fibonacci := new MemoFibonacci();
    a := fibonacci.Call(5);
    ghost var c1 := fibonacci.computations;
    assert fibonacci.cache.Keys == Reached(5);
    b := fibonacci.Call(5);
    ghost var c2 := fibonacci.computations;
    assert fibonacci.cache.Keys == Reached(5);
    c := fibonacci.Call(10);
    computed := fibonacci.computations;
    FibTen();
    FibonacciTrace();
    assert computed == c2 + Computed(10, Reached(5));
    assert c2 == c1 + Computed(5, Reached(5));
    assert c1 == Computed(5, {});
  }

  /** `now - t < window`: the timestamps still inside the window at time `now`. */
  function Within(now: int, window: int): int -> bool {
    t => now - t < window
  }

  /** The window of length `window` that ends at `t`: `t - window < x <= t`. */
  function InWindow(t: int, window: int): int -> bool {
    x => t - window < x <= t
  }

  /** One call of the rate-limited wrapper at time `now`: whether it goes through, and the
      timestamps kept afterwards. */
  function Step(maxCalls: int, window: int, calls: seq<int>, now: int): (bool, seq<int>) {
    var kept := Seqs.Filter(calls, Within(now, window));
    if |kept| >= maxCalls then (false, kept) else (true, kept + [now])
  }

  function LimitMessage(maxCalls: int, window: int): string {
    "Rate limit exceeded: " + Strings.IntToString(maxCalls) + " calls per "
      + Strings.IntToString(window) + " seconds"
  }

  /** `@RateLimit(max_calls, time_window)`. The clock reading is the argument `now`. */
  class RateLimit {
    const maxCalls: int
    const timeWindow: int
    var calls: seq<int>

    ghost predicate Valid()
      reads this
    {
      |calls| <= if maxCalls > 0 then maxCalls else 0
    }

    constructor (maxCalls: int, timeWindow: int)
      ensures Valid() && this.maxCalls == maxCalls && this.timeWindow == timeWindow && calls == []
    {
      this.maxCalls := maxCalls;
      this.timeWindow := timeWindow;
      calls := [];
    }

    /** The wrapper applied to `a` at time `now`: old timestamps are dropped first; the call is
        refused, recording nothing, when `max_calls` remain, and otherwise recorded and forwarded. */
    method Wrapper<A, R>(func: A -> R, a: A, now: int) returns (r: Result<R, PyError>)
      requires Valid()
      modifies this
      ensures Valid()
      ensures (r.Ok?, calls) == Step(maxCalls, timeWindow, old(calls), now)
      ensures r.Ok? ==> r.value == func(a)
      ensures r.Err? ==> r.error == Exception(LimitMessage(maxCalls, timeWindow))
    {
      calls := Seqs.Filter(calls, Within(now, timeWindow));
      if |calls| >= maxCalls {
        return Err(Exception(LimitMessage(maxCalls, timeWindow)));
      }
      calls := calls + [now];
      r := Ok(func(a));
    }
  }

  /** The timestamps of the calls that go through, for calls at the times `nows`. */
  function Admitted(maxCalls: int, window: int, calls: seq<int>, nows: seq<int>): seq<int>
    decreases |nows|
  {
    if nows == [] then []
    else
      var (ok, kept) := Step(maxCalls, window, calls, nows[0]);
      (if ok then [nows[0]] else []) + Admitted(maxCalls, window, kept, nows[1..])
  }

  ghost predicate Nondecreasing(nows: seq<int>) {
    forall i, j :: 0 <= i < j < |nows| ==> nows[i] <= nows[j]
  }

  /** No window of length `window` holds more than `maxCalls` (nor fewer than zero) of `acc`. */
  ghost predicate Bounded(acc: seq<int>, window: int, maxCalls: int) {
    forall t :: |Seqs.Filter(acc, InWindow(t, window))| <= if maxCalls > 0 then maxCalls else 0
  }

  /** Pruning at `now` and then at a later `now'` keeps what pruning at `now'` alone keeps. */
  lemma PruneTwice(s: seq<int>, window: int, now: int, now': int)
    requires now <= now'
    ensures Seqs.Filter(Seqs.Filter(s, Within(now, window)), Within(now', window))
         == Seqs.Filter(s, Within(now', window))
  {
    Seqs.FilterFilter(s, Within(now, window), Within(now', window));
    Seqs.FilterExt(s, Seqs.And(Within(now, window), Within(now', window)), Within(now', window));
  }

  /** Pruning `calls` and pruning `acc` agree at every time from `last` on. */
  ghost predicate Agree(calls: seq<int>, acc: seq<int>, window: int, last: int) {
    forall now :: last <= now ==>
      Seqs.Filter(calls, Within(now, window)) == Seqs.Filter(acc, Within(now, window))
  }

  /** After a prune at `now`, what is kept still agrees with everything admitted. */
  lemma AgreeAfterPrune(calls: seq<int>, acc: seq<int>, window: int, last: int, now: int)
    requires last <= now && Agree(calls, acc, window, last)
    ensures Agree(Seqs.Filter(calls, Within(now, window)), acc, window, now)
  {
    forall now' | now <= now'
      ensures Seqs.Filter(Seqs.Filter(calls, Within(now, window)), Within(now', window))
           == Seqs.Filter(acc, Within(now', window))
    {
      PruneTwice(acc, window, now, now');
    }
  }

  /** Recording `now` on both sides keeps them in agreement. */
  lemma AgreeAfterRecord(kept: seq<int>, acc: seq<int>, window: int, now: int)
    requires Agree(kept, acc, window, now)
    ensures Agree(kept + [now], acc + [now], window, now)
  {
    forall now' | now <= now'
      ensures Seqs.Filter(kept + [now], Within(now', window)) == Seqs.Filter(acc + [now], Within(now', window))
    {
      Seqs.FilterConcat(kept, [now], Within(now', window));
      Seqs.FilterConcat(acc, [now], Within(now', window));
    }
  }

  /** Admitting `now` while fewer than `maxCalls` earlier admissions lie within the window of
      `now` keeps every window within the bound. */
  lemma AdmitKeepsBound(acc: seq<int>, window: int, maxCalls: int, now: int)
    requires AtMost(acc, now)
    requires |Seqs.Filter(acc, Within(now, window))| < maxCalls
    requires Bounded(acc, window, maxCalls)
    ensures Bounded(acc + [now], window, maxCalls)
  {
    forall t ensures |Seqs.Filter(acc + [now], InWindow(t, window))| <= if maxCalls > 0 then maxCalls else 0 {
      Seqs.FilterConcat(acc, [now], InWindow(t, window));
      if t - window < now <= t {
        Seqs.FilterMono(acc, InWindow(t, window), Within(now, window));
      }
    }
  }

  /** Every timestamp of `acc` is at most `t`. */
  ghost predicate AtMost(acc: seq<int>, t: int) {
    forall i :: 0 <= i < |acc| ==> acc[i] <= t
  }

  /** A later clock reading bounds what an earlier one bounded, and the new reading besides. */
  lemma AtMostLater(acc: seq<int>, last: int, now: int)
    requires AtMost(acc, last) && last <= now
    ensures AtMost(acc, now) && AtMost(acc + [now], now)
  {
  }

  /** The rest of a nondecreasing clock is nondecreasing and starts no earlier than its head. */
  lemma NondecreasingTail(nows: seq<int>)
    requires Nondecreasing(nows) && nows != []
    ensures Nondecreasing(nows[1..]) && (nows[1..] != [] ==> nows[0] <= nows[1..][0])
  {
  }

  /** What the induction behind `RateLimitWindow` carries: `calls` is what the limiter holds,
      `acc` the timestamps admitted so far, `last` the latest clock reading, `nows` the calls
      still to come. */
  ghost predicate Inv(maxCalls: int, window: int, calls: seq<int>, acc: seq<int>, last: int, nows: seq<int>) {
    && Nondecreasing(nows) && (nows != [] ==> last <= nows[0])
    && AtMost(acc, last)
    && Agree(calls, acc, window, last)
    && Bounded(acc, window, maxCalls)
  }

  /** A refused call keeps the invariant. */
  lemma InvAfterRefuse(maxCalls: int, window: int, calls: seq<int>, acc: seq<int>, last: int, nows: seq<int>)
    requires Inv(maxCalls, window, calls, acc, last, nows) && nows != []
    ensures Inv(maxCalls, window, Seqs.Filter(calls, Within(nows[0], window)), acc, nows[0], nows[1..])
  {
    NondecreasingTail(nows);
    AtMostLater(acc, last, nows[0]);
    AgreeAfterPrune(calls, acc, window, last, nows[0]);
  }

  /** An admitted call keeps the invariant. */
  lemma InvAfterAdmit(maxCalls: int, window: int, calls: seq<int>, acc: seq<int>, last: int, nows: seq<int>)
    requires Inv(maxCalls, window, calls, acc, last, nows) && nows != []
    requires |Seqs.Filter(calls, Within(nows[0], window))| < maxCalls
    ensures Inv(maxCalls, window, Seqs.Filter(calls, Within(nows[0], window)) + [nows[0]],
                acc + [nows[0]], nows[0], nows[1..])
  {
    var now := nows[0];
    var kept := Seqs.Filter(calls, Within(now, window));
    InvAfterRefuse(maxCalls, window, calls, acc, last, nows);
    AtMostLater(acc, last, now);
    AgreeAfterRecord(kept, acc, window, now);
    AdmitKeepsBound(acc, window, maxCalls, now);
  }

  /** The induction behind `RateLimitWindow`. */
  lemma {:induction false} AdmittedBounded(maxCalls: int, window: int, calls: seq<int>,
                                           acc: seq<int>, last: int, nows: seq<int>)
    requires Inv(maxCalls, window, calls, acc, last, nows)
    ensures Bounded(acc + Admitted(maxCalls, window, calls, nows), window, maxCalls)
    decreases |nows|
  {
    if nows == [] {
      assert acc + [] == acc;
    } else if |Seqs.Filter(calls, Within(nows[0], window))| >= maxCalls {
      InvAfterRefuse(maxCalls, window, calls, acc, last, nows);
      AdmittedBounded(maxCalls, window, Seqs.Filter(calls, Within(nows[0], window)), acc, nows[0], nows[1..]);
      RefusedFirst(maxCalls, window, calls, acc, nows);
    } else {
      InvAfterAdmit(maxCalls, window, calls, acc, last, nows);
      AdmittedBounded(maxCalls, window, Seqs.Filter(calls, Within(nows[0], window)) + [nows[0]],
                      acc + [nows[0]], nows[0], nows[1..]);
      AdmittedFirstCall(maxCalls, window, calls, acc, nows);
    }
  }

  /** When the first call is refused, what is admitted is what the rest admits. */
  lemma RefusedFirst(maxCalls: int, window: int, calls: seq<int>, acc: seq<int>, nows: seq<int>)
    requires nows != [] && |Seqs.Filter(calls, Within(nows[0], window))| >= maxCalls
    ensures acc + Admitted(maxCalls, window, calls, nows)
         == acc + Admitted(maxCalls, window, Seqs.Filter(calls, Within(nows[0], window)), nows[1..])
  {
    AdmittedFirst(maxCalls, window, calls, nows);
  }

  /** When the first call goes through, it is the first admitted timestamp. */
  lemma AdmittedFirstCall(maxCalls: int, window: int, calls: seq<int>, acc: seq<int>, nows: seq<int>)
    requires nows != [] && |Seqs.Filter(calls, Within(nows[0], window))| < maxCalls
    ensures acc + Admitted(maxCalls, window, calls, nows)
         == (acc + [nows[0]]) + Admitted(maxCalls, window, Seqs.Filter(calls, Within(nows[0], window)) + [nows[0]], nows[1..])
  {
    AdmittedFirst(maxCalls, window, calls, nows);
    var rest := Admitted(maxCalls, window, Seqs.Filter(calls, Within(nows[0], window)) + [nows[0]], nows[1..]);
    assert (acc + [nows[0]]) + rest == acc + ([nows[0]] + rest);
  }

  /** The first call of a run either goes through or not, and the rest runs on what it left. */
  lemma AdmittedFirst(maxCalls: int, window: int, calls: seq<int>, nows: seq<int>)
    requires nows != []
    ensures var kept := Seqs.Filter(calls, Within(nows[0], window));
      Admitted(maxCalls, window, calls, nows)
        == if |kept| >= maxCalls then Admitted(maxCalls, window, kept, nows[1..])
           else [nows[0]] + Admitted(maxCalls, window, kept + [nows[0]], nows[1..])
  {
  }

  /** With a clock that never goes back, no window of `time_window` seconds contains more than
      `max_calls` calls that went through. */
  lemma RateLimitWindow(maxCalls: int, window: int, nows: seq<int>)
    requires Nondecreasing(nows)
    ensures Bounded(Admitted(maxCalls, window, [], nows), window, maxCalls)
  {
    var last := if nows == [] then 0 else nows[0];
    AdmittedBounded(maxCalls, window, [], [], last, nows);
    assert [] + Admitted(maxCalls, window, [], nows) == Admitted(maxCalls, window, [], nows);
  }

  function ApiCall(endpoint: string): string {
    "Called " + endpoint
  }

  /** A call at `now` goes through when fewer than `maxCalls` timestamps are held and all of
      them are still inside the window. */
  lemma StepAdmits(maxCalls: int, window: int, calls: seq<int>, now: int)
    requires |calls| < maxCalls
    requires forall i :: 0 <= i < |calls| ==> now - calls[i] < window
    ensures Step(maxCalls, window, calls, now) == (true, calls + [now])
  {
    Seqs.FilterAllPass(calls, Within(now, window));
  }

  /** `@RateLimit(max_calls=3, time_window=2)`: four calls less than two seconds apart; the
      first three go through and the fourth is refused. */
  method ApiExample(t0: int, t1: int, t2: int, t3: int)
    returns (r1: Result<string, PyError>, r2: Result<string, PyError>,
             r3: Result<string, PyError>, r4: Result<string, PyError>)
    requires t0 <= t1 <= t2 <= t3 < t0 + 2
    ensures r1 == Ok("Called /users") && r2 == Ok("Called /posts") && r3 == Ok("Called /comments")
    ensures r4 == Err(Exception("Rate limit exceeded: " + "3" + " calls per " + "2" + " seconds"))
  {
    var limiter := new RateLimit(3, 2);
    r1 := CallRecent(limiter, "/users", t0);
    r2 := CallRecent(limiter, "/posts", t1);
    r3 := CallRecent(limiter, "/comments", t2);
    r4 := CallRecent(limiter, "/likes", t3);
    assert "Called " + "/users" == "Called /users" && "Called " + "/posts" == "Called /posts";
    assert "Called " + "/comments" == "Called /comments";
    ExampleLimitMessage();
  }

  /** The message of the example's limiter. */
  lemma ExampleLimitMessage()
    ensures LimitMessage(3, 2) == "Rate limit exceeded: " + "3" + " calls per " + "2" + " seconds"
  {
    assert Strings.DigitChar(3) == '3' && Strings.DigitChar(2) == '2';
  }

  /** An `api_call` through `limiter` while every held timestamp is still inside the window. */
  method CallRecent(limiter: RateLimit, endpoint: string, now: int) returns (r: Result<string, PyError>)
    requires limiter.Valid()
    requires forall i :: 0 <= i < |limiter.calls| ==> now - limiter.calls[i] < limiter.timeWindow
    modifies limiter
    ensures limiter.Valid()
    ensures |old(limiter.calls)| < limiter.maxCalls ==>
      r == Ok(ApiCall(endpoint)) && limiter.calls == old(limiter.calls) + [now]
    ensures |old(limiter.calls)| >= limiter.maxCalls ==>
      r == Err(Exception(LimitMessage(limiter.maxCalls, limiter.timeWindow))) && limiter.calls == old(limiter.calls)
  {
    if |limiter.calls| < limiter.maxCalls {
      StepAdmits(limiter.maxCalls, limiter.timeWindow, limiter.calls, now);
    } else {
      StepRefuses(limiter.maxCalls, limiter.timeWindow, limiter.calls, now);
    }
    r := limiter.Wrapper(ApiCall, endpoint, now);
  }

  /** A call at `now` is refused when `maxCalls` timestamps are held, all inside the window. */
  lemma StepRefuses(maxCalls: int, window: int, calls: seq<int>, now: int)
    requires |calls| >= maxCalls
    requires forall i :: 0 <= i < |calls| ==> now - calls[i] < window
    ensures Step(maxCalls, window, calls, now) == (false, calls)
  {
    Seqs.FilterAllPass(calls, Within(now, window));
  }

  /** A user; `role == None` stands for an object without a `role` attribute. */
  datatype User = User(name: string, role: Option<string>)

  /** `@RequireAuth(required_role)`. */
  datatype RequireAuth = RequireAuth(requiredRole: string) {
    /** The wrapper applied to `user` and the remaining argument `a`. */
    function Wrapper<A, R>(func: (User, A) -> R, user: User, a: A): (r: Result<R, PyError>)
      ensures r.Ok? <==> user.role == Some(requiredRole)
      ensures r.Ok? ==> r.value == func(user, a)
      ensures user.role == None ==> r == Err(PermissionError("User has no role"))
      ensures user.role.Some? && user.role.value != requiredRole ==>
        r == Err(PermissionError("Requires " + requiredRole + " role, user has " + user.role.value))
    {
      match user.role
      case None => Err(PermissionError("User has no role"))
      case Some(role) =>
        if role != requiredRole then
          Err(PermissionError("Requires " + requiredRole + " role, user has " + role))
        else Ok(func(user, a))
    }
  }

  function DeleteUser(user: User, targetId: int): string {
    user.name + " deleted user " + Strings.IntToString(targetId)
  }

  lemma RenderTargetId()
    ensures Strings.IntToString(123) == "123"
  {
    assert Strings.DigitChar(1) == '1' && Strings.DigitChar(2) == '2' && Strings.DigitChar(3) == '3';
    assert Strings.NatToString(12) == "12";
  }

  /** `delete_user` guarded by the "admin" role: Alice (admin) may, Bob (user) may not. */
  lemma DeleteUserExample()
    ensures RequireAuth("admin").Wrapper(DeleteUser, User("Alice", Some("admin")), 123)
      == Ok("Alice" + " deleted user " + "123")
    ensures RequireAuth("admin").Wrapper(DeleteUser, User("Bob", Some("user")), 123)
      == Err(PermissionError("Requires " + "admin" + " role, user has " + "user"))
  {
    RenderTargetId();
  }
}
