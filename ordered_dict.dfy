/** A Python `dict` whose iteration order matters: its entries as a list in insertion order.
    Assigning to a present key keeps the key's place; a new key goes at the end. */
module OrderedDict {
  import opened Wrappers
  import Seqs

  type Dict<K, V> = seq<(K, V)>

  /** `list(d.keys())`. */
  function Keys<K, V>(d: Dict<K, V>): (ks: seq<K>)
    ensures |ks| == |d|
    ensures forall i :: 0 <= i < |d| ==> ks[i] == d[i].0
  {
    if d == [] then [] else [d[0].0] + Keys(d[1..])
  }

  /** `list(d.values())`. */
  function Values<K, V>(d: Dict<K, V>): (vs: seq<V>)
    ensures |vs| == |d|
    ensures forall i :: 0 <= i < |d| ==> vs[i] == d[i].1
  {
    if d == [] then [] else [d[0].1] + Values(d[1..])
  }

  /** No key occurs twice, as in every Python dict. */
  ghost predicate Wf<K, V>(d: Dict<K, V>) {
    forall i, j :: 0 <= i < j < |d| ==> d[i].0 != d[j].0
  }

  /** `d.get(k)`: the value stored under `k`, or `None`. */
  function Get<K(==), V>(d: Dict<K, V>, k: K): (r: Option<V>)
    ensures r.None? <==> k !in Keys(d)
    ensures r.Some? ==> (k, r.value) in d
  {
    if d == [] then None else if d[0].0 == k then Some(d[0].1) else Get(d[1..], k)
  }

  /** `d[k] = v`: replaces the entry for `k` in place, or appends one when `k` is new. */
  function Set<K(==), V>(d: Dict<K, V>, k: K, v: V): (r: Dict<K, V>)
    ensures Get(r, k) == Some(v)
  {
    if d == [] then [(k, v)]
    else if d[0].0 == k then [(k, v)] + d[1..]
    else [d[0]] + Set(d[1..], k, v)
  }

  /** A set keeps the keys and their order, adding `k` at the end when it is new. */
  lemma {:induction false} SetKeys<K, V>(d: Dict<K, V>, k: K, v: V)
    ensures Keys(Set(d, k, v)) == if k in Keys(d) then Keys(d) else Keys(d) + [k]
    decreases |d|
  {
    if d != [] {
      assert Keys(d) == [d[0].0] + Keys(d[1..]);
      if d[0].0 != k {
        SetKeys(d[1..], k, v);
      }
    }
  }

  /** `del d[k]` when `k` is present; a dict without `k` is returned unchanged. */
  function Remove<K(==), V>(d: Dict<K, V>, k: K): (r: Dict<K, V>)
    ensures |r| <= |d|
  {
    if d == [] then [] else if d[0].0 == k then d[1..] else [d[0]] + Remove(d[1..], k)
  }

  /** Setting a key held by entry `i` replaces exactly that entry. */
  lemma {:induction false} SetPresent<K, V>(d: Dict<K, V>, k: K, v: V, i: nat)
    requires i < |d| && d[i].0 == k
    requires forall j :: 0 <= j < i ==> d[j].0 != k
    ensures Set(d, k, v) == d[i := (k, v)]
    decreases i
  {
    if i > 0 {
      assert d[0].0 != k;
      assert d[1..][i - 1] == d[i];
      assert forall j :: 0 <= j < i - 1 ==> d[1..][j].0 != k by {
        forall j | 0 <= j < i - 1 ensures d[1..][j].0 != k { assert d[1..][j] == d[j + 1]; }
      }
      SetPresent(d[1..], k, v, i - 1);
      assert Set(d, k, v) == [d[0]] + Set(d[1..], k, v);
      UpdateCons(d, i, (k, v));
    } else {
      assert Set(d, k, v) == [(k, v)] + d[1..];
      UpdateCons(d, 0, (k, v));
    }
  }

  /** An update at `i` of a non-empty sequence, in terms of its head and tail. */
  lemma UpdateCons<X>(s: seq<X>, i: nat, x: X)
    requires i < |s|
    ensures i == 0 ==> s[i := x] == [x] + s[1..]
    ensures i > 0 ==> s[i := x] == [s[0]] + s[1..][i - 1 := x]
  {
  }

  /** Setting a new key appends one entry at the end. */
  lemma {:induction false} SetAbsent<K, V>(d: Dict<K, V>, k: K, v: V)
    requires forall i :: 0 <= i < |d| ==> d[i].0 != k
    ensures Set(d, k, v) == d + [(k, v)]
    decreases |d|
  {
    if d != [] {
      assert forall i :: 0 <= i < |d[1..]| ==> d[1..][i].0 != k by {
        forall i | 0 <= i < |d[1..]| ensures d[1..][i].0 != k { assert d[1..][i] == d[i + 1]; }
      }
      SetAbsent(d[1..], k, v);
      assert d[0].0 != k;
      ConsSnoc(d, (k, v));
    }
  }

  lemma ConsSnoc<X>(s: seq<X>, x: X)
    requires s != []
    ensures s + [x] == [s[0]] + (s[1..] + [x])
  {
    assert s == [s[0]] + s[1..];
  }

  /** Every entry after a set is the new entry or one that was there before. */
  lemma {:induction false} SetEntries<K, V>(d: Dict<K, V>, k: K, v: V)
    ensures forall m :: 0 <= m < |Set(d, k, v)| ==> Set(d, k, v)[m] == (k, v) || Set(d, k, v)[m] in d
    decreases |d|
  {
    if d != [] && d[0].0 != k {
      SetEntries(d[1..], k, v);
      var r := Set(d, k, v);
      forall m | 0 <= m < |r| ensures r[m] == (k, v) || r[m] in d {
        if m > 0 {
          assert r[m] == Set(d[1..], k, v)[m - 1];
          assert Set(d[1..], k, v)[m - 1] in d[1..] ==> Set(d[1..], k, v)[m - 1] in d;
        }
      }
    } else if d != [] {
      var r := Set(d, k, v);
      forall m | 0 <= m < |r| ensures r[m] == (k, v) || r[m] in d {
        if m > 0 {
          assert r[m] == d[m];
        }
      }
    }
  }

  /** Setting keeps the keys distinct. */
  lemma SetWf<K, V>(d: Dict<K, V>, k: K, v: V)
    requires Wf(d)
    ensures Wf(Set(d, k, v))
  {
    var r := Set(d, k, v);
    SetKeys(d, k, v);
    forall i, j | 0 <= i < j < |r| ensures r[i].0 != r[j].0 {
      assert Keys(r)[i] == r[i].0 && Keys(r)[j] == r[j].0;
      if k !in Keys(d) {
        if j < |d| {
          assert Keys(d)[i] == d[i].0 && Keys(d)[j] == d[j].0;
        } else {
          assert Keys(d)[i] == d[i].0;
        }
      } else {
        assert Keys(d)[i] == d[i].0 && Keys(d)[j] == d[j].0;
      }
    }
  }

  /** Removing the key of entry `i` takes out exactly that entry and keeps the rest in order. */
  lemma {:induction false} RemovePresent<K, V>(d: Dict<K, V>, k: K, i: nat)
    requires Wf(d) && i < |d| && d[i].0 == k
    ensures Remove(d, k) == d[..i] + d[i + 1..]
    decreases i
  {
    if i > 0 {
      assert d[1..][i - 1].0 == k;
      RemovePresent(d[1..], k, i - 1);
      assert d[..i] + d[i + 1..] == [d[0]] + (d[1..][..i - 1] + d[1..][i..]);
    }
  }

  /** Removing an absent key changes nothing. */
  lemma {:induction false} RemoveAbsent<K, V>(d: Dict<K, V>, k: K)
    requires forall i :: 0 <= i < |d| ==> d[i].0 != k
    ensures Remove(d, k) == d
    decreases |d|
  {
    if d != [] {
      assert forall i :: 0 <= i < |d[1..]| ==> d[1..][i].0 != k by {
        forall i | 0 <= i < |d[1..]| ensures d[1..][i].0 != k { assert d[1..][i] == d[i + 1]; }
      }
      RemoveAbsent(d[1..], k);
      assert d[0].0 != k;
      assert [d[0]] + d[1..] == d;
    }
  }

  /** Taking out entry `i` leaves distinct keys, none of them the key of entry `i`. */
  lemma CutWf<K, V>(d: Dict<K, V>, i: nat)
    requires Wf(d) && i < |d|
    ensures Wf(d[..i] + d[i + 1..])
    ensures var r := d[..i] + d[i + 1..]; forall m :: 0 <= m < |r| ==> r[m].0 != d[i].0
  {
    var r := d[..i] + d[i + 1..];
    assert forall m :: 0 <= m < |r| ==> r[m] == d[if m < i then m else m + 1];
  }

  /** After a remove the key is gone and the remaining keys stay distinct. */
  lemma RemoveWf<K, V>(d: Dict<K, V>, k: K)
    requires Wf(d)
    ensures Wf(Remove(d, k))
    ensures k !in Keys(Remove(d, k))
  {
    var r := Remove(d, k);
    if k in Keys(d) {
      var i :| 0 <= i < |d| && Keys(d)[i] == k;
      RemovePresent(d, k, i);
      CutWf(d, i);
    } else {
      AbsentKey(d, k);
      RemoveAbsent(d, k);
    }
    assert forall m :: 0 <= m < |r| ==> Keys(r)[m] == r[m].0;
  }

  /** A key outside `Keys(d)` is the key of no entry. */
  lemma AbsentKey<K, V>(d: Dict<K, V>, k: K)
    requires k !in Keys(d)
    ensures forall i :: 0 <= i < |d| ==> d[i].0 != k
  {
    assert forall i :: 0 <= i < |d| ==> Keys(d)[i] == d[i].0;
  }

  /** Reading after a write: the written key has the new value, every other key is untouched. */
  lemma {:induction false} GetSet<K, V>(d: Dict<K, V>, k: K, v: V, k': K)
    ensures Get(Set(d, k, v), k') == if k' == k then Some(v) else Get(d, k')
    decreases |d|
  {
    if d != [] && d[0].0 != k {
      GetSet(d[1..], k, v, k');
    }
  }

  /** Every entry left after a remove was an entry before. */
  lemma {:induction false} RemoveEntries<K, V>(d: Dict<K, V>, k: K)
    ensures forall m :: 0 <= m < |Remove(d, k)| ==> Remove(d, k)[m] in d
    decreases |d|
  {
    if d != [] {
      RemoveEntries(d[1..], k);
      var r := Remove(d, k);
      forall m | 0 <= m < |r| ensures r[m] in d {
        if d[0].0 == k {
          assert r[m] == d[m + 1];
        } else if m > 0 {
          assert r[m] == Remove(d[1..], k)[m - 1];
          assert Remove(d[1..], k)[m - 1] in d[1..];
        }
      }
    }
  }

  /** Reading after a delete: the deleted key is gone, every other key is untouched. */
  lemma {:induction false} GetRemove<K, V>(d: Dict<K, V>, k: K, k': K)
    requires Wf(d)
    ensures Get(Remove(d, k), k') == if k' == k then None else Get(d, k')
    decreases |d|
  {
    RemoveWf(d, k);
    if d != [] && d[0].0 != k {
      RemoveWf(d[1..], k);
      GetRemove(d[1..], k, k');
    }
  }

  /** The number of entries after removing a key. */
  lemma RemoveCount<K, V>(d: Dict<K, V>, k: K)
    requires Wf(d)
    ensures |Remove(d, k)| == if k in Keys(d) then |d| - 1 else |d|
  {
    if k in Keys(d) {
      var i :| 0 <= i < |d| && Keys(d)[i] == k;
      RemovePresent(d, k, i);
    } else {
      AbsentKey(d, k);
      RemoveAbsent(d, k);
    }
  }
  /** `{**d, **e}`: a copy of `d` into which every entry of `e` is set in turn. */
  function Merge<K(==), V>(d: Dict<K, V>, e: Dict<K, V>): (r: Dict<K, V>)
    decreases |e|
  {
    if e == [] then d else Merge(Set(d, e[0].0, e[0].1), e[1..])
  }

  /** Reading a merge: a key of `e` has its value in `e`, any other key its value in `d`. */
  lemma {:induction false} GetMerge<K, V>(d: Dict<K, V>, e: Dict<K, V>, k: K)
    requires Wf(e)
    ensures Get(Merge(d, e), k) == if k in Keys(e) then Get(e, k) else Get(d, k)
    decreases |e|
  {
    if e != [] {
      assert Keys(e) == [e[0].0] + Keys(e[1..]);
      TailWf(e);
      if k == e[0].0 {
        forall i | 0 <= i < |e[1..]| ensures e[1..][i].0 != k { assert e[1..][i] == e[i + 1]; }
        assert k !in Keys(e[1..]);
      }
      GetMerge(Set(d, e[0].0, e[0].1), e[1..], k);
      GetSet(d, e[0].0, e[0].1, k);
    }
  }

  /** Dropping the first entry keeps the keys distinct. */
  lemma TailWf<K, V>(e: Dict<K, V>)
    requires e != []
    ensures Wf(e) ==> Wf(e[1..])
  {
    if Wf(e) {
      forall i, j | 0 <= i < j < |e[1..]| ensures e[1..][i].0 != e[1..][j].0 {
        assert e[1..][i] == e[i + 1] && e[1..][j] == e[j + 1];
      }
    }
  }

  /** The same, for every key at once. */
  lemma GetMergeAll<K, V>(d: Dict<K, V>, e: Dict<K, V>)
    ensures Wf(e) ==> forall k :: Get(Merge(d, e), k) == if k in Keys(e) then Get(e, k) else Get(d, k)
  {
    if Wf(e) {
      forall k ensures Get(Merge(d, e), k) == if k in Keys(e) then Get(e, k) else Get(d, k) {
        GetMerge(d, e, k);
      }
    }
  }

  /** A merge into a dict with no repeated key has no repeated key. */
  lemma {:induction false} MergeWf<K, V>(d: Dict<K, V>, e: Dict<K, V>)
    ensures Wf(d) ==> Wf(Merge(d, e))
    decreases |e|
  {
    if e != [] && Wf(d) {
      SetWf(d, e[0].0, e[0].1);
      MergeWf(Set(d, e[0].0, e[0].1), e[1..]);
    }
  }

  /** No key of `e` is a key of `d`. */
  ghost predicate Disjoint<K, V>(d: Dict<K, V>, e: Dict<K, V>) {
    forall i, j :: 0 <= i < |d| && 0 <= j < |e| ==> d[i].0 != e[j].0
  }

  /** Moving the first entry of a dict with distinct keys over to `d` keeps the two disjoint. */
  lemma DisjointShift<K, V>(d: Dict<K, V>, e: Dict<K, V>)
    requires e != [] && Wf(e) && Disjoint(d, e)
    ensures Disjoint(d + [e[0]], e[1..])
  {
    var d', t := d + [e[0]], e[1..];
    forall i, j | 0 <= i < |d'| && 0 <= j < |t| ensures d'[i].0 != t[j].0 {
      assert t[j] == e[j + 1];
      if i == |d| {
        assert d'[i] == e[0];
      } else {
        assert d'[i] == d[i];
      }
    }
  }

  /** When `d` holds none of the keys of `e`, the merge is `d` followed by `e`. */
  lemma {:induction false} MergeFresh<K, V>(d: Dict<K, V>, e: Dict<K, V>)
    requires Wf(e) && Disjoint(d, e)
    ensures Merge(d, e) == d + e
    decreases |e|
  {
    if e != [] {
      MergeNewKey(d, e);
      DisjointShift(d, e);
      TailWf(e);
      MergeFresh(d + [e[0]], e[1..]);
      ShiftAppend(d, e);
    }
  }

  /** Moving the first entry of `e` to the end of `d` leaves `d + e` as it was. */
  lemma ShiftAppend<X>(d: seq<X>, e: seq<X>)
    requires e != []
    ensures d + [e[0]] + e[1..] == d + e
  {
    assert [e[0]] + e[1..] == e;
  }

  /** Merging an entry whose key `d` lacks appends it. */
  lemma MergeNewKey<K, V>(d: Dict<K, V>, e: Dict<K, V>)
    requires e != [] && Disjoint(d, e)
    ensures Merge(d, e) == Merge(d + [e[0]], e[1..])
  {
    assert forall i :: 0 <= i < |d| ==> d[i].0 != e[0].0;
    SetAbsent(d, e[0].0, e[0].1);
  }

  /** `{**{}, **e}` is `e` itself. */
  lemma MergeIntoEmpty<K, V>(e: Dict<K, V>)
    ensures Wf(e) ==> Merge([], e) == e
  {
    if Wf(e) {
      MergeFresh([], e);
    }
  }
}
