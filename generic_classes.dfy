/** The generic containers of `3_generic_classes.py`: a stack, a FIFO queue, a box, a pair, an
    id-assigning repository, a success/failure result, a size-bounded cache and a linked list. */
module GenericClasses {
  import opened Wrappers
  import opened OrderedDict
  import Strings

  // ----- Stack: a list used from its end -----

  /** What `pop()` does to the items `s`: the item taken and the items left. */
  function Popped<T>(s: seq<T>): (r: (Option<T>, seq<T>))
    ensures r.0.None? <==> s == []
    ensures r.0.None? ==> r.1 == s
    ensures r.0.Some? ==> r.1 + [r.0.value] == s
  {
    if s == [] then (None, s) else (Some(s[|s| - 1]), s[..|s| - 1])
  }

  /** Pushing `x` and then popping returns `x` and restores the previous items. */
  lemma PushThenPop<T>(s: seq<T>, x: T)
    ensures Popped(s + [x]) == (Some(x), s)
  {
    assert (s + [x])[..|s|] == s;
  }

  class Stack<T> {
    var items: seq<T>

    constructor ()
      ensures items == []
    {
      items := [];
    }

    method Push(item: T)
      modifies this
      ensures items == old(items) + [item]
    {
      items := items + [item];
    }

    /** Removes and returns the top item, or `None` on an empty stack. */
    method Pop() returns (r: Option<T>)
      modifies this
      ensures (r, items) == Popped(old(items))
    {
      if items != [] {
        r := Some(items[|items| - 1]);
        items := items[..|items| - 1];
      } else {
        r := None;
      }
    }

    /** The item the next `Pop` would return; the stack is left as it is. */
    function Peek(): (r: Option<T>)
      reads this
      ensures r == Popped(items).0
    {
      if items != [] then Some(items[|items| - 1]) else None
    }

    function IsEmpty(): (b: bool)
      reads this
      ensures b <==> Popped(items).0.None?
    {
      |items| == 0
    }

    function Size(): (n: nat)
      reads this
      ensures n == |items|
      ensures n > 0 ==> |Popped(items).1| == n - 1
    {
      |items|
    }
  }

  // ----- Queue: a list used from its front -----

  /** What `dequeue()` does to the items `s`: the item taken and the items left. */
  function Dequeued<T>(s: seq<T>): (r: (Option<T>, seq<T>))
    ensures r.0.None? <==> s == []
    ensures r.0.None? ==> r.1 == s
    ensures r.0.Some? ==> [r.0.value] + r.1 == s
  {
    if s == [] then (None, s) else (Some(s[0]), s[1..])
  }

  /** Enqueueing behind a non-empty queue does not change which item comes out next. */
  lemma EnqueueKeepsFront<T>(s: seq<T>, x: T)
    requires s != []
    ensures Dequeued(s + [x]) == (Some(s[0]), s[1..] + [x])
  {
    assert (s + [x])[1..] == s[1..] + [x];
  }

  /** Everything that comes out of a queue dequeued until it is empty, in order. */
  function Drain<T>(s: seq<T>): seq<T>
    decreases |s|
  {
    match Dequeued(s).0
    case None => []
    case Some(x) => [x] + Drain(Dequeued(s).1)
  }

  /** FIFO: a queue gives its items back in exactly the order they were enqueued. */
  lemma {:induction false} DrainIsFifo<T>(s: seq<T>)
    ensures Drain(s) == s
    decreases |s|
  {
    if s != [] {
      DrainIsFifo(s[1..]);
    }
  }

  class Queue<T> {
    var items: seq<T>

    constructor ()
      ensures items == []
    {
      items := [];
    }

    method Enqueue(item: T)
      modifies this
      ensures items == old(items) + [item]
    {
      items := items + [item];
    }

    /** Removes and returns the front item, or `None` on an empty queue. */
    method Dequeue() returns (r: Option<T>)
      modifies this
      ensures (r, items) == Dequeued(old(items))
    {
      if items != [] {
        r := Some(items[0]);
        items := items[1..];
      } else {
        r := None;
      }
    }

    /** The item the next `Dequeue` would return. */
    function Front(): (r: Option<T>)
      reads this
      ensures r == Dequeued(items).0
    {
      if items != [] then Some(items[0]) else None
    }

    function IsEmpty(): (b: bool)
      reads this
      ensures b <==> Dequeued(items).0.None?
    {
      |items| == 0
    }
  }

  /** The task loop: dequeue until the queue is empty, collecting what comes out. */
  method ProcessAll<T>(q: Queue<T>) returns (processed: seq<T>)
    modifies q
    ensures processed == old(q.items) && q.items == []
  {
    processed := [];
    while !q.IsEmpty()
      invariant processed + q.items == old(q.items)
      decreases |q.items|
    {
      var x := q.Dequeue();
      processed := processed + [x.value];
    }
  }

  // ----- Box and Pair -----

  class Box<T> {
    var content: T

    constructor (content: T)
      ensures this.content == content
    {
      this.content := content;
    }

    /** `get()`: the content last stored. */
    function Get(): T
      reads this
    {
      content
    }

    method Set(content: T)
      modifies this
      ensures this.content == content
    {
      this.content := content;
    }

    /** A new box holding `f` of this box's content; this box is not touched. */
    method Transform<U>(f: T -> U) returns (b: Box<U>)
      ensures fresh(b) && b.content == f(content)
    {
      b := new Box(f(content));
    }
  }

  /** Reading back a box: `get()` after `set(x)` is `x`, and a transformed box reads `func` of
      what the original held while the original still reads it. */
  method BoxReadBack<T, U>(b: Box<T>, x: T, f: T -> U) returns (got: T, mapped: U, kept: T)
    modifies b
    ensures got == x && mapped == f(x) && kept == x
    ensures b.Get() == x
  {
    b.Set(x);
    got := b.Get();
    var t := b.Transform(f);
    mapped := t.Get();
    kept := b.Get();
  }

  /** The example boxes: 42 reads back as 42 and doubles to 84, "hello" to "HELLO". */
  method BoxExamples() returns (intGot: int, doubled: int, strGot: string, upper: string)
    ensures intGot == 42 && doubled == 84
    ensures strGot == "hello" && upper == "HELLO"
  {
    var intBox := new Box(42);
    var strBox := new Box("hello");
    intGot := intBox.Get();
    var d := intBox.Transform((x: int) => x * 2);
    doubled := d.Get();
    strGot := strBox.Get();
    var u := strBox.Transform(Strings.Upper);
    upper := u.Get();
    assert Strings.Upper("hello") == "HELLO";
  }

  datatype Pair<K, V> = Pair(key: K, value: V) {
    /** A new pair with the key and the value exchanged. */
    function Swap(): (p: Pair<V, K>)
      ensures p.key == value && p.value == key
    {
      Pair(value, key)
    }
  }

  /** Swapping twice gives back the pair. */
  lemma SwapSwap<K, V>(p: Pair<K, V>)
    ensures p.Swap().Swap() == p
  {
  }

  // ----- Repository: ids handed out from a counter -----

  /** Appending an entry under a new id keeps every stored id among the issued ones. */
  lemma AddedIssued<T>(d: Dict<int, T>, issued: set<int>, id: int, item: T)
    requires forall i :: 0 <= i < |d| ==> d[i].0 in issued
    requires id >= 1 && forall i :: i in issued <==> 1 <= i < id
    ensures forall i :: 0 <= i < |d + [(id, item)]| ==> (d + [(id, item)])[i].0 in issued + {id}
    ensures forall i :: i in issued + {id} <==> 1 <= i < id + 1
    ensures id !in issued
  {
  }

  class Repository<T> {
    var items: Dict<int, T>
    var nextId: int
    /** Every id `Add` has handed out so far. */
    ghost var issued: set<int>

    ghost predicate Valid()
      reads this
    {
      && Wf(items)
      && nextId >= 1
      && (forall i :: i in issued <==> 1 <= i < nextId)
      && forall i :: 0 <= i < |items| ==> items[i].0 in issued
    }

    constructor ()
      ensures Valid() && items == [] && nextId == 1 && issued == {}
    {
      items := [];
      nextId := 1;
      issued := {};
    }

    /** Stores `item` under a brand-new id, at the end of the insertion order, and returns the id. */
    method Add(item: T) returns (id: int)
      requires Valid()
      modifies this
      ensures Valid()
      ensures id == old(nextId) && nextId == id + 1
      ensures id !in old(issued) && issued == old(issued) + {id}
      ensures items == old(items) + [(id, item)]
    {
      id := nextId;
      assert forall i :: 0 <= i < |items| ==> items[i].0 != id;
      SetAbsent(items, id, item);
      SetWf(items, id, item);
      AddedIssued(items, issued, id, item);
      items := Set(items, id, item);
      nextId := nextId + 1;
      issued := issued + {id};
    }

    /** The item stored under `id`, or `None`. */
    function Get(id: int): (r: Option<T>)
      reads this
      ensures r.None? <==> id !in Keys(items)
      ensures r.Some? ==> (id, r.value) in items
    {
      OrderedDict.Get(items, id)
    }

    /** All stored items, in the order they were added. */
    function GetAll(): (r: seq<T>)
      reads this
      ensures |r| == |items| && forall i :: 0 <= i < |items| ==> r[i] == items[i].1
    {
      Values(items)
    }

    /** Deletes the entry for `id` if there is one, and says whether there was. */
    method Delete(id: int) returns (found: bool)
      requires Valid()
      modifies this
      ensures Valid() && nextId == old(nextId) && issued == old(issued)
      ensures found <==> id in Keys(old(items))
      ensures items == Remove(old(items), id)
      ensures |items| == if found then |old(items)| - 1 else |old(items)|
    {
      found := id in Keys(items);
      RemoveCount(items, id);
      RemoveWf(items, id);
      RemoveEntries(items, id);
      items := Remove(items, id);
    }

    function Count(): (n: nat)
      reads this
      ensures n == |Keys(items)|
    {
      |items|
    }
  }

  /** The script's three users get ids 1, 2 and 3, and the repository then holds three. */
  method RepositoryExample() returns (id1: int, id2: int, id3: int, count: nat)
    ensures id1 == 1 && id2 == 2 && id3 == 3 && count == 3
  {
    var repo := new Repository<string>();
    id1 := repo.Add("Alice");
    id2 := repo.Add("Bob");
    id3 := repo.Add("Charlie");
    count := repo.Count();
  }

  // ----- Result: a value or an error message -----

  /** `Result(value, error)`: successful exactly when there is no error. */
  datatype Outcome<T> = Outcome(value: Option<T>, error: Option<string>) {
    predicate IsSuccess() {
      error.None?
    }
  }

  function Success<T>(v: T): (r: Outcome<T>)
    ensures r.IsSuccess() && r.value == Some(v)
  {
    Outcome(Some(v), None)
  }

  function Failure<T>(e: string): (r: Outcome<T>)
    ensures !r.IsSuccess() && r.error == Some(e) && r.value == None
  {
    Outcome(None, Some(e))
  }

  /** `divide(a, b)`: a failure "Division by zero" exactly when `b` is zero, else the quotient. */
  function Divide(a: real, b: real): (r: Outcome<real>)
    ensures !r.IsSuccess() <==> b == 0.0
    ensures !r.IsSuccess() ==> r.error == Some("Division by zero")
    ensures r.IsSuccess() ==> r.value.Some? && r.value.value * b == a
  {
    if b == 0.0 then Failure("Division by zero") else Success(a / b)
  }

  // ----- Cache: evicts its oldest entry when full -----

  /** How many entries a cache with this `max_size` can hold. */
  function Capacity(maxSize: int): nat {
    if maxSize < 0 then 0 else maxSize
  }

  /** What `set(k, v)` makes of the entries `d`. When `d` is full the first-inserted entry is
      deleted first, whether or not `k` is present; a full cache with no entries (a `max_size`
      of 0 or less) has no first key and raises StopIteration. */
  function CacheSet<K(==), V>(d: Dict<K, V>, maxSize: int, k: K, v: V): (r: Result<Dict<K, V>, PyError>)
    ensures r.Err? <==> d == [] && maxSize <= 0
    ensures r.Err? ==> r.error == StopIteration
    ensures r.Ok? ==> OrderedDict.Get(r.value, k) == Some(v)
  {
    if |d| >= maxSize then
      if d == [] then Err(StopIteration) else Ok(Set(Remove(d, d[0].0), k, v))
    else Ok(Set(d, k, v))
  }

  /** Keys after dropping the first entry. */
  lemma KeysTail<K, V>(d: Dict<K, V>)
    requires d != []
    ensures Keys(d[1..]) == Keys(d)[1..]
  {
  }

  /** A set keeps the entries within capacity and the keys distinct. */
  lemma CacheSetBounded<K, V>(d: Dict<K, V>, maxSize: int, k: K, v: V)
    requires Wf(d) && |d| <= Capacity(maxSize)
    ensures CacheSet(d, maxSize, k, v).Ok? ==>
      Wf(CacheSet(d, maxSize, k, v).value) && |CacheSet(d, maxSize, k, v).value| <= Capacity(maxSize)
  {
    if CacheSet(d, maxSize, k, v).Ok? {
      if |d| >= maxSize {
        RemovePresent(d, d[0].0, 0);
        RemoveWf(d, d[0].0);
        SetWf(d[1..], k, v);
        SetKeys(d[1..], k, v);
      } else {
        SetWf(d, k, v);
        SetKeys(d, k, v);
      }
    }
  }

  /** On a full cache the oldest key goes first, even when `k` itself is present: the keys
      become the old ones minus the first, with `k` kept in place or added at the end. */
  lemma CacheSetEvictsOldest<K, V>(d: Dict<K, V>, maxSize: int, k: K, v: V)
    requires Wf(d) && maxSize >= 1 && |d| >= maxSize
    ensures CacheSet(d, maxSize, k, v).Ok?
    ensures var ks := Keys(d)[1..];
      Keys(CacheSet(d, maxSize, k, v).value) == if k in ks then ks else ks + [k]
  {
    RemovePresent(d, d[0].0, 0);
    KeysTail(d);
    SetKeys(d[1..], k, v);
  }

  /** Every key other than `k` and the evicted one keeps its value. */
  lemma CacheSetOthers<K, V>(d: Dict<K, V>, maxSize: int, k: K, v: V, k': K)
    requires Wf(d) && k' != k && CacheSet(d, maxSize, k, v).Ok?
    ensures OrderedDict.Get(CacheSet(d, maxSize, k, v).value, k') ==
      if |d| >= maxSize && k' == d[0].0 then None else OrderedDict.Get(d, k')
  {
    if |d| >= maxSize {
      GetSet(Remove(d, d[0].0), k, v, k');
      GetRemove(d, d[0].0, k');
    } else {
      GetSet(d, k, v, k');
    }
  }

  class Cache<K(==), V> {
    var data: Dict<K, V>
    var maxSize: int

    ghost predicate Valid()
      reads this
    {
      Wf(data) && |data| <= Capacity(maxSize)
    }

    constructor (maxSize: int := 100)
      ensures Valid() && data == [] && this.maxSize == maxSize
    {
      data := [];
      this.maxSize := maxSize;
    }

    /** Stores `value` under `key`, evicting the oldest entry first when the cache is full. */
    method Set(key: K, value: V) returns (r: Result<(), PyError>)
      requires Valid()
      modifies this
      ensures Valid() && maxSize == old(maxSize)
      ensures var after := CacheSet(old(data), maxSize, key, value);
        if after.Ok? then r == Ok(()) && data == after.value else r == Err(after.error) && data == old(data)
      ensures r.Ok? ==> Get(key) == Some(value) && Has(key)
    {
      CacheSetBounded(data, maxSize, key, value);
      if |data| >= maxSize {
        if data == [] {
          return Err(StopIteration);
        }
        var firstKey := data[0].0;
        data := Remove(data, firstKey);
      }
      data := OrderedDict.Set(data, key, value);
      r := Ok(());
    }

    function Get(key: K): (r: Option<V>)
      reads this
      ensures r.None? <==> key !in Keys(data)
      ensures r.Some? ==> (key, r.value) in data
    {
      OrderedDict.Get(data, key)
    }

    function Has(key: K): (b: bool)
      reads this
      ensures b <==> Get(key).Some?
    {
      key in Keys(data)
    }

    /** Drops every entry; afterwards no key is present. */
    method Clear()
      requires Valid()
      modifies this
      ensures Valid() && data == [] && maxSize == old(maxSize)
      ensures forall k :: !Has(k)
    {
      data := [];
    }
  }

  // ----- LinkedList: nodes chained through `next` -----

  class Node<T> {
    var value: T
    var next: Node?<T>

    constructor (value: T)
      ensures this.value == value && next == null
    {
      this.value := value;
      next := null;
    }
  }

  class LinkedList<T> {
    var head: Node?<T>
    /** The nodes reachable from `head`, in order. */
    ghost var nodes: seq<Node<T>>
    ghost var Repr: set<object>

    ghost predicate Valid()
      reads this, Repr
    {
      && this in Repr
      && (forall i :: 0 <= i < |nodes| ==> nodes[i] in Repr)
      && (head == null <==> nodes == [])
      && (nodes != [] ==> head == nodes[0] && nodes[|nodes| - 1].next == null)
      && (forall i :: 0 <= i < |nodes| - 1 ==> nodes[i].next == nodes[i + 1])
    }

    /** `to_list()` as a value: the node values from head to tail. */
    ghost function Contents(): seq<T>
      reads this, Repr
      requires Valid()
    {
      seq(|nodes|, i reads this, Repr requires 0 <= i < |nodes| && Valid() => nodes[i].value)
    }

    constructor ()
      ensures Valid() && fresh(Repr) && Contents() == []
    {
      head := null;
      nodes := [];
      Repr := {this};
    }

    /** Walks to the last node and links a new node holding `value` after it. */
    method Append(value: T)
      requires Valid()
      modifies Repr
      ensures Valid() && fresh(Repr - old(Repr))
      ensures Contents() == old(Contents()) + [value]
    {
      var n := new Node(value);
      if head == null {
        head := n;
        nodes := [n];
        Repr := Repr + {n};
        return;
      }
      var current := head;
      ghost var i := 0;
      forall j | 0 <= j < |nodes| - 1 ensures nodes[j].next != null {
        assert nodes[j].next == nodes[j + 1];
      }
      while current.next != null
        invariant Valid()
        invariant 0 <= i < |nodes| && current == nodes[i]
        invariant forall j :: 0 <= j < |nodes| - 1 ==> nodes[j].next != null
        decreases |nodes| - i
      {
        current := current.next;
        i := i + 1;
      }
      assert i == |nodes| - 1;
      ghost var was := Contents();
      assert forall j :: 0 <= j < |nodes| - 1 ==> nodes[j] != current by {
        forall j | 0 <= j < |nodes| - 1 ensures nodes[j] != current {
          assert nodes[j].next == nodes[j + 1];
        }
      }
      current.next := n;
      nodes := nodes + [n];
      Repr := Repr + {n};
      assert Contents() == was + [value];
    }

    /** The values from head to tail, collected by following `next`. */
    method ToList() returns (r: seq<T>)
      requires Valid()
      ensures r == Contents()
    {
      r := [];
      var current := head;
      ghost var i := 0;
      while current != null
        invariant 0 <= i <= |nodes|
        invariant current == if i < |nodes| then nodes[i] else null
        invariant r == Contents()[..i]
        decreases |nodes| - i
      {
        r := r + [current.value];
        current := current.next;
        i := i + 1;
      }
    }
  }
}
