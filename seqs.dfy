/** Python list operations used across the scripts: comprehensions, folds, `index`, `remove`, `insert`. */
module Seqs {
  import opened Wrappers

  /** `[x for x in s if p(x)]`: keeps the elements that satisfy `p`, each as often as it occurs. */
  function Filter<T>(s: seq<T>, p: T -> bool): (r: seq<T>)
    ensures |r| <= |s|
    ensures forall i :: 0 <= i < |r| ==> p(r[i])
  {
    if s == [] then [] else (if p(s[0]) then [s[0]] else []) + Filter(s[1..], p)
  }

  /** The filter keeps every element that satisfies `p` as often as it occurs, and nothing else. */
  lemma {:induction false} FilterCounts<T>(s: seq<T>, p: T -> bool)
    ensures multiset(Filter(s, p)) <= multiset(s)
    ensures forall i :: 0 <= i < |s| && p(s[i]) ==> multiset(Filter(s, p))[s[i]] == multiset(s)[s[i]]
    decreases |s|
  {
    if s != [] {
      FilterCounts(s[1..], p);
      assert s == [s[0]] + s[1..];
      assert multiset(s) == multiset{s[0]} + multiset(s[1..]);
      forall i | 0 <= i < |s| && p(s[i])
        ensures multiset(Filter(s, p))[s[i]] == multiset(s)[s[i]]
      {
        if i > 0 {
          assert s[i] == s[1..][i - 1];
        } else if s[0] in s[1..] {
          var j :| 0 <= j < |s[1..]| && s[1..][j] == s[0];
        }
      }
    }
  }

  /** Filtering distributes over concatenation, so the kept elements stay in their original order. */
  lemma {:induction false} FilterConcat<T>(a: seq<T>, b: seq<T>, p: T -> bool)
    ensures Filter(a + b, p) == Filter(a, p) + Filter(b, p)
    decreases |a|
  {
    if a == [] {
      assert a + b == b;
    } else {
      FilterConcat(a[1..], b, p);
      assert (a + b)[0] == a[0];
      assert (a + b)[1..] == a[1..] + b;
    }
  }

  /** `r` is read off `s` at the strictly increasing positions `idx`. */
  ghost predicate PicksInOrder<T>(s: seq<T>, idx: seq<nat>, r: seq<T>) {
    && |idx| == |r|
    && (forall j :: 0 <= j < |idx| ==> idx[j] < |s| && r[j] == s[idx[j]])
    && (forall j, k :: 0 <= j < k < |idx| ==> idx[j] < idx[k])
  }

  /** Every position moved one place on. */
  function Shifted(idx: seq<nat>): (r: seq<nat>)
    ensures |r| == |idx| && forall j :: 0 <= j < |idx| ==> r[j] == idx[j] + 1
  {
    if idx == [] then [] else [idx[0] + 1] + Shifted(idx[1..])
  }

  /** Putting `x` in front moves every picked position on by one, and picking `x` adds position 0. */
  lemma PicksShift<T>(x: T, t: seq<T>, rest: seq<nat>, r: seq<T>, keep: bool)
    requires PicksInOrder(t, rest, r)
    ensures PicksInOrder([x] + t, (if keep then [0] else []) + Shifted(rest), (if keep then [x] else []) + r)
  {
  }

  /** The positions of `s` whose elements satisfy `p`, in increasing order. */
  function FilterIndices<T>(s: seq<T>, p: T -> bool): (r: seq<nat>)
    ensures |r| == |Filter(s, p)|
  {
    if s == [] then [] else (if p(s[0]) then [0] else []) + Shifted(FilterIndices(s[1..], p))
  }

  /** The filter result is read off `s` at the increasing positions `FilterIndices`. */
  lemma {:induction false} FilterPicks<T>(s: seq<T>, p: T -> bool)
    ensures PicksInOrder(s, FilterIndices(s, p), Filter(s, p))
    decreases |s|
  {
    if s != [] {
      FilterPicks(s[1..], p);
      PicksShift(s[0], s[1..], FilterIndices(s[1..], p), Filter(s[1..], p), p(s[0]));
      assert [s[0]] + s[1..] == s;
    }
  }

  /** Every position whose element satisfies `p` is among `FilterIndices`. */
  lemma {:induction false} FilterIndicesCover<T>(s: seq<T>, p: T -> bool, i: nat)
    requires i < |s| && p(s[i])
    ensures i in FilterIndices(s, p)
    decreases |s|
  {
    var head: seq<nat> := if p(s[0]) then [0] else [];
    if i > 0 {
      assert s[1..][i - 1] == s[i];
      FilterIndicesCover(s[1..], p, i - 1);
      var rest := FilterIndices(s[1..], p);
      var j :| 0 <= j < |rest| && rest[j] == i - 1;
      assert (head + Shifted(rest))[|head| + j] == i;
    }
  }

  /** The filter result is the satisfying elements of `s` read off in their original order:
      at increasing positions, and at every position whose element satisfies `p`. */
  lemma FilterInOrder<T>(s: seq<T>, p: T -> bool)
    ensures exists idx :: PicksInOrder(s, idx, Filter(s, p)) && forall i :: 0 <= i < |s| && p(s[i]) ==> i in idx
  {
    var idx := FilterIndices(s, p);
    FilterPicks(s, p);
    forall i | 0 <= i < |s| && p(s[i])
      ensures i in idx
    {
      FilterIndicesCover(s, p, i);
    }
  }

  /** A list whose every element satisfies `p` passes the filter unchanged. */
  lemma {:induction false} FilterAllPass<T>(s: seq<T>, p: T -> bool)
    requires forall i :: 0 <= i < |s| ==> p(s[i])
    ensures Filter(s, p) == s
    decreases |s|
  {
    if s != [] {
      FilterAllPass(s[1..], p);
    }
  }

  /** The conjunction of two predicates. */
  function And<T>(p: T -> bool, q: T -> bool): T -> bool {
    x => p(x) && q(x)
  }

  /** Filtering twice is filtering once by the conjunction of the two predicates. */
  lemma {:induction false} FilterFilter<T>(s: seq<T>, p: T -> bool, q: T -> bool)
    ensures Filter(Filter(s, p), q) == Filter(s, And(p, q))
    decreases |s|
  {
    if s != [] {
      FilterFilter(s[1..], p, q);
      var head := if p(s[0]) then [s[0]] else [];
      FilterConcat(head, Filter(s[1..], p), q);
    }
  }

  /** `[f(x) for x in s]`: same length, element `i` is `f(s[i])`. */
  function Map<T, U>(s: seq<T>, f: T -> U): (r: seq<U>)
    ensures |r| == |s|
    ensures forall i :: 0 <= i < |s| ==> r[i] == f(s[i])
  {
    if s == [] then [] else [f(s[0])] + Map(s[1..], f)
  }

  /** Applies the functions left to right: `for f in fs: x = f(x)`. */
  function ApplyAll<T>(fs: seq<T -> T>, x: T): T
    decreases |fs|
  {
    if fs == [] then x else ApplyAll(fs[1..], fs[0](x))
  }

  /** Appending a function runs it after all the earlier ones. */
  lemma {:induction false} ApplyAllSnoc<T>(fs: seq<T -> T>, g: T -> T, x: T)
    ensures ApplyAll(fs + [g], x) == g(ApplyAll(fs, x))
    decreases |fs|
  {
    if fs != [] {
      assert (fs + [g])[1..] == fs[1..] + [g];
      ApplyAllSnoc(fs[1..], g, fs[0](x));
    }
  }

  /** `for item in s: acc = f(acc, item)`: the left fold. */
  function FoldLeft<A, T>(f: (A, T) -> A, acc: A, s: seq<T>): A
    decreases |s|
  {
    if s == [] then acc else FoldLeft(f, f(acc, s[0]), s[1..])
  }

  /** Folding one more element applies `f` once more at the end. */
  lemma {:induction false} FoldLeftSnoc<A, T>(f: (A, T) -> A, acc: A, s: seq<T>, x: T)
    ensures FoldLeft(f, acc, s + [x]) == f(FoldLeft(f, acc, s), x)
    decreases |s|
  {
    if s != [] {
      assert (s + [x])[1..] == s[1..] + [x];
      FoldLeftSnoc(f, f(acc, s[0]), s[1..], x);
    }
  }

  /** `s.index(x)`, with `None` where Python raises ValueError: the first position of `x`. */
  function IndexOf<T(==)>(s: seq<T>, x: T): (r: Option<nat>)
    ensures r.None? <==> x !in s
    ensures r.Some? ==> r.value < |s| && s[r.value] == x && x !in s[..r.value]
  {
    if s == [] then None
    else if s[0] == x then Some(0)
    else
      match IndexOf(s[1..], x)
      case None => None
      case Some(i) =>
        assert s[..i + 1] == [s[0]] + s[1..][..i];
        Some(i + 1)
  }

  /** `s.remove(x)`, with `None` where Python raises ValueError: drops the first occurrence only. */
  function RemoveFirst<T(==)>(s: seq<T>, x: T): (r: Option<seq<T>>)
    ensures r.None? <==> x !in s
    ensures r.Some? ==> |r.value| == |s| - 1 && multiset(r.value) == multiset(s) - multiset{x}
  {
    match IndexOf(s, x)
    case None => None
    case Some(i) =>
      assert s == s[..i] + [x] + s[i + 1..];
      Some(s[..i] + s[i + 1..])
  }

  /** The slot `s.insert(i, x)` uses: negative indices count from the end, and both ends clamp. */
  function InsertPos(i: int, n: nat): (k: nat)
    ensures k <= n
    ensures 0 <= i <= n ==> k == i
  {
    if i < 0 then (if i + n < 0 then 0 else i + n) else if i > n then n else i
  }

  /** `s.insert(i, x)`: `x` lands at position `InsertPos(i, |s|)`, the rest keep their order. */
  function InsertAt<T>(s: seq<T>, i: int, x: T): (r: seq<T>)
    ensures |r| == |s| + 1
    ensures r[InsertPos(i, |s|)] == x
    ensures r[..InsertPos(i, |s|)] + r[InsertPos(i, |s|) + 1..] == s
  {
    var k := InsertPos(i, |s|);
    var r := s[..k] + [x] + s[k..];
    assert r[..k] == s[..k];
    assert r[k + 1..] == s[k..];
    r
  }

  /** Removing the first `x` and re-inserting it at the index it had gives back the list. */
  lemma RemoveThenInsert<T>(s: seq<T>, x: T)
    requires x in s
    ensures IndexOf(s, x).Some? && RemoveFirst(s, x).Some?
    ensures InsertAt(RemoveFirst(s, x).value, IndexOf(s, x).value, x) == s
  {
    var i := IndexOf(s, x).value;
    var rest := s[..i] + s[i + 1..];
    assert rest[..i] == s[..i];
    assert rest[i..] == s[i + 1..];
    assert s == s[..i] + [x] + s[i + 1..];
  }

  /** Where `y` is first found in `s + [x]`. */
  lemma {:induction false} IndexOfAppend<T>(s: seq<T>, x: T, y: T)
    ensures IndexOf(s + [x], y) == if y in s then IndexOf(s, y) else if x == y then Some(|s|) else None
    decreases |s|
  {
    if s == [] {
      assert [] + [x] == [x];
    } else {
      assert (s + [x])[1..] == s[1..] + [x];
      IndexOfAppend(s[1..], x, y);
      assert y in s <==> y == s[0] || y in s[1..] by {
        assert s == [s[0]] + s[1..];
      }
    }
  }

  /** Shifting `u` left by one and appending `x` gives `u` back iff every element of `u` is `x`. */
  lemma {:induction false} ShiftFixpoint<T>(u: seq<T>, x: T)
    requires u != []
    ensures u[1..] + [x] == u <==> forall k :: 0 <= k < |u| ==> u[k] == x
    decreases |u|
  {
    if |u| == 1 {
      assert u[1..] + [x] == [x];
    } else {
      ShiftFixpoint(u[1..], x);
      var v := u[1..] + [x];
      assert v[0] == u[1];
      assert v[1..] == u[1..][1..] + [x];
      assert v == u <==> v[0] == u[0] && v[1..] == u[1..] by {
        assert v == [v[0]] + v[1..];
        assert u == [u[0]] + u[1..];
      }
    }
  }

  /** With an `x` already in `s`, removing the first `x` from `s + [x]` takes out that earlier one. */
  lemma RemoveAppendedPresent<T>(s: seq<T>, x: T)
    requires x in s
    ensures IndexOf(s, x).Some?
    ensures RemoveFirst(s + [x], x) ==
      Some(s[..IndexOf(s, x).value] + (s[IndexOf(s, x).value + 1..] + [x]))
  {
    IndexOfAppend(s, x, x);
    var i := IndexOf(s, x).value;
    var t := s + [x];
    assert t[..i] == s[..i];
    assert t[i + 1..] == s[i + 1..] + [x];
  }

  /** Taking out the `x` at `i` and appending `x` gives back `s` iff `x` fills `s` from `i` on. */
  lemma ShiftTailFixpoint<T>(s: seq<T>, x: T, i: nat)
    requires i < |s|
    ensures s[..i] + (s[i + 1..] + [x]) == s <==> forall k :: i <= k < |s| ==> s[k] == x
  {
    var u := s[i..];
    ShiftFixpoint(u, x);
    assert u[1..] == s[i + 1..];
    calc {
      s[..i] + (s[i + 1..] + [x]) == s;
    <==> { assert s == s[..i] + u; }
      s[..i] + (u[1..] + [x]) == s[..i] + u;
    <==> { assert |u[1..] + [x]| == |u|;
           assert forall v: seq<T> :: |v| == |u| && s[..i] + v == s[..i] + u ==> v == (s[..i] + v)[i..]; }
      u[1..] + [x] == u;
    }
    assert (forall k :: 0 <= k < |u| ==> u[k] == x) ==> (forall k :: i <= k < |s| ==> s[k] == x) by {
      if forall k :: 0 <= k < |u| ==> u[k] == x {
        forall k | i <= k < |s| ensures s[k] == x { assert s[k] == u[k - i]; }
      }
    }
  }

  /** Appending `x` and then removing the first `x` gives back the list exactly when the list
      holds no `x`, or every element from its first `x` onward is `x`. */
  lemma AppendThenRemove<T>(s: seq<T>, x: T)
    ensures RemoveFirst(s + [x], x).Some?
    ensures RemoveFirst(s + [x], x).value == s <==>
      x !in s || forall k :: IndexOf(s, x).value <= k < |s| ==> s[k] == x
  {
    IndexOfAppend(s, x, x);
    if x in s {
      RemoveAppendedPresent(s, x);
      ShiftTailFixpoint(s, x, IndexOf(s, x).value);
    } else {
      var t := s + [x];
      assert t[..|s|] == s;
      assert t[|s| + 1..] == [];
    }
  }

  /** The calls made by invoking each of `listeners` once, in order, with the argument `v`. */
  function Notifications<L, T>(listeners: seq<L>, v: T): (r: seq<(L, T)>)
    ensures |r| == |listeners|
    ensures forall i :: 0 <= i < |listeners| ==> r[i] == (listeners[i], v)
  {
    if listeners == [] then [] else [(listeners[0], v)] + Notifications(listeners[1..], v)
  }

  /** Subscribing one more listener adds its notification at the end. */
  lemma NotificationsSnoc<L, T>(ls: seq<L>, l: L, v: T)
    ensures Notifications(ls + [l], v) == Notifications(ls, v) + [(l, v)]
  {
  }

  /** Filtering by two predicates that agree on every element of `s` gives the same list. */
  lemma {:induction false} FilterExt<T>(s: seq<T>, p: T -> bool, q: T -> bool)
    requires forall i :: 0 <= i < |s| ==> p(s[i]) == q(s[i])
    ensures Filter(s, p) == Filter(s, q)
    decreases |s|
  {
    if s != [] {
      FilterExt(s[1..], p, q);
    }
  }

  /** A predicate implied by another on every element keeps at least as many elements. */
  lemma {:induction false} FilterMono<T>(s: seq<T>, p: T -> bool, q: T -> bool)
    requires forall i :: 0 <= i < |s| && p(s[i]) ==> q(s[i])
    ensures |Filter(s, p)| <= |Filter(s, q)|
    decreases |s|
  {
    if s != [] {
      FilterMono(s[1..], p, q);
    }
  }

  /** Every element the filter keeps comes from the input. */
  lemma FilterSubset<T>(s: seq<T>, p: T -> bool)
    ensures forall x :: x in Filter(s, p) ==> x in s
  {
    FilterCounts(s, p);
    forall x | x in Filter(s, p) ensures x in s {
      assert x in multiset(Filter(s, p));
    }
  }

  /** `s[:n]` for `n >= 0`: the first `n` elements, or all of `s` when it is shorter. */
  function Prefix<T>(s: seq<T>, n: nat): (r: seq<T>)
    ensures |r| == if n <= |s| then n else |s|
    ensures r <= s
  {
    if n <= |s| then s[..n] else s
  }

  /** `s[-n:]` for `n > 0`: the last `n` elements, or all of `s` when it is shorter. */
  function Suffix<T>(s: seq<T>, n: nat): (r: seq<T>)
    ensures |r| == if n <= |s| then n else |s|
    ensures r == s[|s| - |r|..]
  {
    if n <= |s| then s[|s| - n..] else s
  }

  /** `reversed(s)`. */
  function Reverse<T>(s: seq<T>): (r: seq<T>)
    ensures |r| == |s|
    ensures forall i :: 0 <= i < |s| ==> r[i] == s[|s| - 1 - i]
  {
    if s == [] then [] else Reverse(s[1..]) + [s[0]]
  }
}
