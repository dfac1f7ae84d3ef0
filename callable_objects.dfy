/** Objects that behave like functions, and functions handled as values. */
module CallableObjects {
  import Strings
  import DecoratorCallables

  /** `Counter(start=0)`: calling the object counts up from `start`. */
  class Counter {
    var count: int

    constructor (start: int := 0)
      ensures count == start
    {
      count := start;
    }

    /** `__call__()`: one more, and the new count is returned. */
    method Call() returns (r: int)
      modifies this
      ensures count == old(count) + 1 && r == count
    {
      count := count + 1;
      r := count;
    }
  }

  /** Calling a counter `n` times returns the next `n` numbers and leaves it `n` higher. */
  method CallTimes(c: Counter, n: nat) returns (values: seq<int>)
    modifies c
    ensures c.count == old(c.count) + n
    ensures |values| == n && forall i :: 0 <= i < n ==> values[i] == old(c.count) + i + 1
  {
    values := [];
    var k := 0;
    while k < n
      invariant 0 <= k <= n
      invariant c.count == old(c.count) + k
      invariant |values| == k && forall i :: 0 <= i < k ==> values[i] == old(c.count) + i + 1
    {
      var v := c.Call();
      values := values + [v];
      k := k + 1;
    }
  }

  /** Three calls on a fresh counter give 1, 2 and 3. */
  method CounterExample() returns (a: int, b: int, c: int)
    ensures a == 1 && b == 2 && c == 3
  {
    var counter := new Counter();
    a := counter.Call();
    b := counter.Call();
    c := counter.Call();
  }

  /** `apply_twice(fn, x)`. */
  function ApplyTwice(fn: int -> int, x: int): (r: int)
    ensures r == fn(fn(x))
  {
    fn(fn(x))
  }

  /** `increment(n)`. */
  function Increment(n: int): (r: int)
    ensures r == n + 1
  {
    n + 1
  }

  /** `fn` applied `n` times to `x`. */
  function Iterate(fn: int -> int, n: nat, x: int): int {
    if n == 0 then x else fn(Iterate(fn, n - 1, x))
  }

  /** `apply_twice` is two iterations, whichever function it is given; applied to its own
      result it gives four, and one more application can come first or last. */
  lemma ApplyTwiceIterates(fn: int -> int, x: int)
    ensures ApplyTwice(fn, x) == Iterate(fn, 2, x)
    ensures ApplyTwice(fn, ApplyTwice(fn, x)) == Iterate(fn, 4, x)
    ensures ApplyTwice(fn, fn(x)) == fn(ApplyTwice(fn, x))
  {
    assert Iterate(fn, 1, x) == fn(x);
    assert Iterate(fn, 2, x) == fn(fn(x));
    assert Iterate(fn, 3, x) == fn(fn(fn(x)));
    assert Iterate(fn, 4, x) == fn(fn(fn(fn(x))));
  }

  /** `n` increments add `n`. */
  lemma {:induction false} IterateIncrement(n: nat, x: int)
    ensures Iterate(Increment, n, x) == x + n
  {
    if n > 0 {
      IterateIncrement(n - 1, x);
    }
  }

  /** `apply_twice(increment, 3)` is 5. */
  lemma ApplyTwiceExample()
    ensures ApplyTwice(Increment, 3) == 5
  {
    ApplyTwiceIterates(Increment, 3);
    IterateIncrement(2, 3);
  }

  /** The list `[greet, str.upper]` applied to "chai". */
  lemma FunctionListExample()
    ensures [DecoratorCallables.Greet("chai"), Strings.Upper("chai")] == ["Hello, chai!", "CHAI"]
  {
    assert "Hello, " + "chai" + "!" == "Hello, chai!";
    assert Strings.Upper("chai") == "CHAI";
  }
}
