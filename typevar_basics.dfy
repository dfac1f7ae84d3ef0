/** Generic functions and small classes over a type variable: identity, pairs, search,
    filtering and mapping, a string-keyed cache, doubling and the middle element. */
module TypeVarBasics {
  import opened Wrappers
  import Seqs
  import Strings
  import AdvancedCallables

  /** `identity(value)`. */
  function Identity<T>(value: T): (r: T)
    ensures r == value
  {
    value
  }

  /** `are_equal(a, b)`: the same verdict as `both_equal` on the pair of the two. */
  function AreEqual<T(==)>(a: T, b: T): (r: bool)
    ensures r <==> Pair(a, b).BothEqual()
  {
    a == b
  }

  /** `make_pair(first, second)`. */
  function MakePair<T, U>(first: T, second: U): (r: (T, U))
    ensures r.0 == first && r.1 == second
  {
    (first, second)
  }

  /** `find_item(items, target)`: the index of the first occurrence, or `None` when absent. */
  function FindItem<T(==)>(items: seq<T>, target: T): (r: Option<nat>)
    ensures r.None? <==> target !in items
    ensures r.Some? ==> r.value < |items| && items[r.value] == target
    ensures r.Some? ==> forall j :: 0 <= j < r.value ==> items[j] != target
  {
    var r := Seqs.IndexOf(items, target);
    assert r.Some? ==> forall j :: 0 <= j < r.value ==> items[j] != target by {
      if r.Some? {
        forall j | 0 <= j < r.value ensures items[j] != target {
          assert items[j] == items[..r.value][j];
        }
      }
    }
    r
  }

  /** The examples: 30 at index 2, "banana" at index 1, and 99 absent. */
  lemma FindItemExamples()
    ensures FindItem([10, 20, 30, 40, 50], 30) == Some(2)
    ensures FindItem(["apple", "banana", "cherry"], "banana") == Some(1)
    ensures FindItem([10, 20, 30, 40, 50], 99) == None
  {
    var numbers := [10, 20, 30, 40, 50];
    assert numbers[2] == 30 && numbers[0] != 30 && numbers[1] != 30;
    var words := ["apple", "banana", "cherry"];
    assert words[1] == "banana" && words[0] != "banana";
    assert 99 !in numbers;
  }

  /** `Pair(first, second)`, never changed after construction. */
  datatype Pair<T(==)> = Pair(first: T, second: T) {
    /** `swap()`: the two values exchanged. */
    function Swap(): (r: (T, T))
      ensures r == (second, first)
    {
      (second, first)
    }

    /** `both_equal()`: true exactly for the pairs that swapping leaves unchanged. */
    function BothEqual(): (r: bool)
      ensures r <==> Pair(Swap().0, Swap().1) == this
    {
      first == second
    }
  }

  /** Swapping twice gives the pair back, and swapping a pair made by `make_pair` gives the
      pair of the arguments in the other order. */
  lemma SwapTwice<T>(p: Pair<T>, a: T, b: T)
    ensures Pair(p.Swap().0, p.Swap().1).Swap() == (p.first, p.second)
    ensures Pair(MakePair(a, b).0, MakePair(a, b).1).Swap() == MakePair(b, a)
  {
  }

  /** `filter_items(items, predicate)`: the items satisfying the predicate, in their order and
      with their multiplicities. */
  function FilterItems<T>(items: seq<T>, keep: T -> bool): (r: seq<T>)
    ensures forall i :: 0 <= i < |r| ==> keep(r[i])
    ensures multiset(r) <= multiset(items)
    ensures forall i :: 0 <= i < |items| && keep(items[i]) ==> multiset(r)[items[i]] == multiset(items)[items[i]]
  {
    Seqs.FilterCounts(items, keep);
    Seqs.Filter(items, keep)
  }

  /** Filtering distributes over concatenation, so what is kept stays in order. */
  lemma FilterItemsOrder<T>(a: seq<T>, b: seq<T>, keep: T -> bool)
    ensures FilterItems(a + b, keep) == FilterItems(a, keep) + FilterItems(b, keep)
  {
    Seqs.FilterConcat(a, b, keep);
  }

  /** `transform_items(items, transformer)`. */
  function TransformItems<T, U>(items: seq<T>, transformer: T -> U): (r: seq<U>)
    ensures |r| == |items|
    ensures forall i :: 0 <= i < |items| ==> r[i] == transformer(items[i])
  {
    Seqs.Map(items, transformer)
  }

  /** Transforming with `identity` changes nothing, and searching for `identity(x)` finds
      what searching for `x` finds. */
  lemma IdentityLaws<T>(items: seq<T>, x: T)
    ensures TransformItems(items, Identity) == items
    ensures FindItem(items, Identity(x)) == FindItem(items, x)
  {
  }

  function UpperWord(w: string): string {
    Strings.Upper(w)
  }

  /** The examples: the evens of 1..10, their squares, and three words upper-cased. */
  lemma EvensExample()
    ensures FilterItems([1, 2, 3, 4, 5, 6, 7, 8, 9, 10], AdvancedCallables.IsEven) == [2, 4, 6, 8, 10]
  {
    AdvancedCallables.EvensUpToTen();
  }

  lemma SquaresExample()
    ensures TransformItems([1, 2, 3, 4, 5, 6, 7, 8, 9, 10], AdvancedCallables.Square)
         == [1, 4, 9, 16, 25, 36, 49, 64, 81, 100]
  {
    var r := TransformItems([1, 2, 3, 4, 5, 6, 7, 8, 9, 10], AdvancedCallables.Square);
    SquaresByIndex(r);
  }

  /** The squares of 1 to 10, element by element. */
  lemma SquaresByIndex(r: seq<int>)
    requires |r| == 10 && forall i :: 0 <= i < 10 ==> r[i] == (i + 1) * (i + 1)
    ensures r == [1, 4, 9, 16, 25, 36, 49, 64, 81, 100]
  {
    assert r[0] == 1 && r[1] == 4 && r[2] == 9 && r[3] == 16 && r[4] == 25;
    assert r[5] == 36 && r[6] == 49 && r[7] == 64 && r[8] == 81 && r[9] == 100;
  }

  lemma UpperExample()
    ensures TransformItems(["hello", "world", "python"], UpperWord) == ["HELLO", "WORLD", "PYTHON"]
  {
    assert UpperWord("hello") == "HELLO";
    assert UpperWord("world") == "WORLD";
    assert UpperWord("python") == "PYTHON";
  }

  /** `Cache()`: a dictionary from string keys to values. */
  class Cache<T> {
    var data: map<string, T>

    constructor ()
      ensures data == map[]
    {
      data := map[];
    }

    /** `set(key, value)`. */
    method Set(key: string, value: T)
      modifies this
      ensures data == old(data)[key := value]
    {
      data := data[key := value];
    }

    /** `get(key)`: the stored value, or `None` for a key never set. */
    function Get(key: string): (r: Option<T>)
      reads this
      ensures r.None? <==> key !in data
      ensures r.Some? ==> r.value == data[key]
    {
      if key in data then Some(data[key]) else None
    }
  }

  /** The integer cache of the example, plus a key that was never set. */
  method CacheExample() returns (userId: Option<int>, count: Option<int>, missing: Option<int>)
    ensures userId == Some(12345) && count == Some(42) && missing == None
  {
    var intCache := new Cache<int>();
    intCache.Set("user_id", 12345);
    intCache.Set("count", 42);
    userId := intCache.Get("user_id");
    count := intCache.Get("count");
    missing := intCache.Get("username");
  }

  /** `double_list(items)`: the list followed by itself. */
  function DoubleList<T>(items: seq<T>): (r: seq<T>)
    ensures |r| == 2 * |items|
    ensures r[..|items|] == items && r[|items|..] == items
  {
    items + items
  }

  /** `get_middle_item(items)`: `None` for an empty list, otherwise the element at `len // 2`. */
  function GetMiddleItem<T>(items: seq<T>): (r: Option<T>)
    ensures r.None? <==> items == []
    ensures r.Some? ==> r.value == items[|items| / 2]
    ensures r.Some? ==> exists k :: 0 <= k < |items| && r.value == items[k]
                                    && |items[k + 1..]| <= |items[..k]| <= |items[k + 1..]| + 1
  {
    if items == [] then None else Some(items[|items| / 2])
  }

  /** The middle of a doubled non-empty list is its first item. */
  lemma MiddleOfDoubled<T>(items: seq<T>)
    requires items != []
    ensures GetMiddleItem(DoubleList(items)) == Some(items[0])
  {
    assert DoubleList(items)[|items|] == DoubleList(items)[|items|..][0];
  }

  lemma DoubleAndMiddleExamples()
    ensures DoubleList([1, 2, 3]) == [1, 2, 3, 1, 2, 3] && GetMiddleItem([1, 2, 3]) == Some(2)
    ensures DoubleList(["a", "b", "c", "d", "e"]) == ["a", "b", "c", "d", "e", "a", "b", "c", "d", "e"]
    ensures GetMiddleItem(["a", "b", "c", "d", "e"]) == Some("c")
  {
  }
}
