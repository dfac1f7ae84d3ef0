/** Callable objects in practice: an event emitter, payment strategies, query filters over records,
    a middleware pipeline with authentication and rate limiting, and undoable commands. */
module PracticalCallables {
  import opened Wrappers
  import Seqs
  import Strings

  // ----- Event emitter -----

  /** The callbacks registered for `event`, in registration order (none for an unknown event). */
  function Registered<C>(listeners: map<string, seq<C>>, event: string): seq<C> {
    if event in listeners then listeners[event] else []
  }

  /** An event emitter over callbacks of type `C` called with arguments of type `A`.
      A callback only prints, so each invocation is recorded in `calls`. */
  class EventEmitter<C, A> {
    var listeners: map<string, seq<C>>
    var calls: seq<(C, A)>

    constructor ()
      ensures listeners == map[] && calls == []
    {
      listeners := map[];
      calls := [];
    }

    /** `on`: the first callback for an event creates its list; later ones go at its end. */
    method On(event: string, callback: C)
      modifies this
      ensures listeners == old(listeners)[event := Registered(old(listeners), event) + [callback]]
      ensures calls == old(calls)
    {
      if event !in listeners {
        listeners := listeners[event := []];
      }
      listeners := listeners[event := listeners[event] + [callback]];
    }

    /** `emit`: every callback registered for the event, once each, in registration order;
        an event nobody listens to calls nothing. */
    method Emit(event: string, args: A)
      modifies this
      ensures listeners == old(listeners)
      ensures calls == old(calls) + Seqs.Notifications(Registered(listeners, event), args)
      ensures event !in listeners ==> calls == old(calls)
    {
      if event in listeners {
        var cbs := listeners[event];
        for i := 0 to |cbs|
          invariant listeners == old(listeners)
          invariant calls == old(calls) + Seqs.Notifications(cbs[..i], args)
        {
          Seqs.NotificationsSnoc(cbs[..i], cbs[i], args);
          assert cbs[..i + 1] == cbs[..i] + [cbs[i]];
          calls := calls + [(cbs[i], args)];
        }
        assert cbs[..|cbs|] == cbs;
      }
    }
  }

  /** Registering a callback makes it the last one the event's emit calls, and changes no other event. */
  lemma OnThenEmit<C, A>(listeners: map<string, seq<C>>, event: string, callback: C, other: string, args: A)
    ensures var l := listeners[event := Registered(listeners, event) + [callback]];
      Seqs.Notifications(Registered(l, other), args) ==
        if other == event then Seqs.Notifications(Registered(listeners, event), args) + [(callback, args)]
        else Seqs.Notifications(Registered(listeners, other), args)
  {
    Seqs.NotificationsSnoc(Registered(listeners, event), callback, args);
  }

  /** The login example: three handlers for "user_login", each called once with "Alice", in order. */
  method LoginExample() returns (calls: seq<(string, string)>)
    ensures calls == [("on_user_login", "Alice"), ("send_welcome_email", "Alice"), ("update_last_login", "Alice")]
  {
    var emitter := new EventEmitter<string, string>();
    emitter.On("user_login", "on_user_login");
    emitter.On("user_login", "send_welcome_email");
    emitter.On("user_login", "update_last_login");
    emitter.Emit("user_login", "Alice");
    calls := emitter.calls;
  }

  // ----- Payment strategies -----

  datatype PaymentStrategy =
    | CreditCard(cardNumber: string)
    | PayPal(email: string)
    | Crypto(walletAddress: string)

  /** The dict a strategy returns: the payment method, the account under the key `detailKey`, the amount and a status. */
  datatype Receipt = Receipt(paymentMethod: string, detailKey: string, detail: string, amount: real, status: string)

  /** `PaymentProcessor.process_payment(amount, strategy)`, which returns `strategy(amount)`.
      A card shows only its last four characters; a wallet its first ten followed by "...". */
  function ProcessPayment(amount: real, strategy: PaymentStrategy): (r: Receipt)
    ensures r.amount == amount
    ensures r.status == "pending" <==> strategy.Crypto?
    ensures r.status == "success" <==> !strategy.Crypto?
    ensures strategy.CreditCard? ==>
      var card := strategy.cardNumber;
      && r.paymentMethod == "Credit Card" && r.detailKey == "card"
      && |r.detail| == 4 + (if |card| < 4 then |card| else 4)
      && r.detail[..4] == "****"
      && r.detail[4..] == card[|card| - (|r.detail| - 4)..]
    ensures strategy.PayPal? ==> r.paymentMethod == "PayPal" && r.detailKey == "email" && r.detail == strategy.email
    ensures strategy.Crypto? ==>
      var wallet := strategy.walletAddress;
      && r.paymentMethod == "Cryptocurrency" && r.detailKey == "wallet"
      && |r.detail| == 3 + (if |wallet| < 10 then |wallet| else 10)
      && r.detail[..|r.detail| - 3] <= wallet
      && r.detail[|r.detail| - 3..] == "..."
  {
    match strategy
    case CreditCard(card) => Receipt("Credit Card", "card", "****" + Seqs.Suffix(card, 4), amount, "success")
    case PayPal(email) => Receipt("PayPal", "email", email, amount, "success")
    case Crypto(wallet) => Receipt("Cryptocurrency", "wallet", Seqs.Prefix(wallet, 10) + "...", amount, "pending")
  }

  /** The three payments of the example. */
  lemma PaymentExamples()
    ensures ProcessPayment(100.0, CreditCard("1234567890123456")).detail == "****3456"
    ensures ProcessPayment(50.0, PayPal("user@example.com")).status == "success"
    ensures ProcessPayment(200.0, Crypto("0x742d35Cc6634C0532925a3b844Bc9e7595f0bEb")).detail == "0x742d35Cc..."
  {
    var card := "1234567890123456";
    assert Seqs.Suffix(card, 4) == card[12..];
    var wallet := "0x742d35Cc6634C0532925a3b844Bc9e7595f0bEb";
    assert Seqs.Prefix(wallet, 10) == wallet[..10];
  }

  // ----- Query filters -----

  /** A field value of a record: an int, a string or None. */
  datatype Value = IntV(i: int) | StrV(s: string) | NoneV

  type Record = map<string, Value>

  /** The pairs Python can order with `<`: two ints or two strings. */
  predicate Comparable(a: Value, b: Value) {
    (a.IntV? && b.IntV?) || (a.StrV? && b.StrV?)
  }

  /** Python's `a < b`; any other pair of types raises TypeError. */
  function PyLess(a: Value, b: Value): (r: Result<bool, PyError>)
    ensures r.Err? <==> !Comparable(a, b)
    ensures a.IntV? && b.IntV? ==> r == Ok(a.i < b.i)
  {
    match (a, b)
    case (IntV(x), IntV(y)) => Ok(x < y)
    case (StrV(x), StrV(y)) => Ok(Strings.Less(x, y))
    case _ => Err(TypeError("'<' not supported between instances of '" + TypeName(a) + "' and '" + TypeName(b) + "'"))
  }

  /** Python's `a > b`: the mirror of `<` when both sides can be ordered, but its TypeError
      names `>` and lists the operand types in the order they were written. */
  function PyGreater(a: Value, b: Value): (r: Result<bool, PyError>)
    ensures r.Err? <==> !Comparable(a, b)
    ensures a.IntV? && b.IntV? ==> r == Ok(a.i > b.i)
    ensures r.Ok? ==> r == PyLess(b, a)
  {
    match (a, b)
    case (IntV(x), IntV(y)) => Ok(x > y)
    case (StrV(x), StrV(y)) => Ok(Strings.Less(y, x))
    case _ => Err(TypeError("'>' not supported between instances of '" + TypeName(a) + "' and '" + TypeName(b) + "'"))
  }

  /** The two orderings raise different texts for the same pair of operands. */
  lemma OrderingErrorTexts()
    ensures PyGreater(StrV("abc"), IntV(5)) == Err(TypeError("'>' not supported between instances of 'str' and 'int'"))
    ensures PyLess(IntV(5), StrV("abc")) == Err(TypeError("'<' not supported between instances of 'int' and 'str'"))
  {
    assert "'>' not supported between instances of '" + "str" + "' and '" + "int" + "'" ==
      "'>' not supported between instances of 'str' and 'int'";
    assert "'<' not supported between instances of '" + "int" + "' and '" + "str" + "'" ==
      "'<' not supported between instances of 'int' and 'str'";
  }

  /** `type(v).__name__`. */
  function TypeName(v: Value): string {
    match v
    case IntV(_) => "int"
    case StrV(_) => "str"
    case NoneV => "NoneType"
  }

  /** `str(v)`. */
  function Str(v: Value): string {
    match v
    case IntV(i) => Strings.IntToString(i)
    case StrV(s) => s
    case NoneV => "None"
  }

  /** `item.get(field, default)`. */
  function GetOr(item: Record, field: string, default: Value): Value {
    if field in item then item[field] else default
  }

  /** The filter objects; `Contains` holds its needle already lower-cased. */
  datatype QueryFilter =
    | GreaterThan(field: string, value: Value)
    | LessThan(field: string, value: Value)
    | Equals(field: string, value: Value)
    | Contains(field: string, needle: string)

  /** `Contains(field, value)`: the constructor stores `value.lower()`. */
  function MakeContains(field: string, value: string): (f: QueryFilter)
    ensures f.Contains? && f.field == field && f.needle == Strings.Lower(value)
  {
    Contains(field, Strings.Lower(value))
  }

  /** `f(item)`: whether the record passes the filter, or the TypeError an ordering raises.
      The orderings read a missing field as 0, `Equals` reads it as None, `Contains` as "". */
  function Apply(f: QueryFilter, item: Record): (r: Result<bool, PyError>)
    ensures r.Err? ==> f.GreaterThan? || f.LessThan?
    ensures (f.GreaterThan? || f.LessThan?) ==> (r.Err? <==> !Comparable(GetOr(item, f.field, IntV(0)), f.value))
    ensures f.GreaterThan? && f.value.IntV? ==>
      (f.field !in item ==> r == Ok(0 > f.value.i)) &&
      (f.field in item && item[f.field].IntV? ==> r == Ok(item[f.field].i > f.value.i))
    ensures f.LessThan? && f.value.IntV? ==>
      (f.field !in item ==> r == Ok(0 < f.value.i)) &&
      (f.field in item && item[f.field].IntV? ==> r == Ok(item[f.field].i < f.value.i))
    ensures f.Equals? ==> r == Ok(if f.field in item then item[f.field] == f.value else f.value == NoneV)
    ensures f.GreaterThan? ==> r == PyGreater(GetOr(item, f.field, IntV(0)), f.value)
    ensures f.LessThan? ==> r == PyLess(GetOr(item, f.field, IntV(0)), f.value)
  {
    match f
    case GreaterThan(field, v) => PyGreater(GetOr(item, field, IntV(0)), v)
    case LessThan(field, v) => PyLess(GetOr(item, field, IntV(0)), v)
    case Equals(field, v) => Ok(GetOr(item, field, NoneV) == v)
    case Contains(field, needle) => Ok(Strings.Contains(Strings.Lower(Str(GetOr(item, field, StrV("")))), needle))
  }

  /** `Contains` passes a record exactly when the lower-cased needle occurs in the lower-cased field text. */
  lemma ContainsMeaning(field: string, value: string, item: Record)
    ensures Apply(MakeContains(field, value), item) == Ok(true) <==>
      exists k :: Strings.OccursAt(Strings.Lower(Str(GetOr(item, field, StrV("")))), Strings.Lower(value), k)
  {
    Strings.ContainsAt(Strings.Lower(Str(GetOr(item, field, StrV("")))), Strings.Lower(value));
  }

  /** `Contains` ignores case, both in the value it is built with and in the field it reads. */
  lemma ContainsIgnoresCase(field: string, value: string, s: string, item: Record)
    ensures Apply(MakeContains(field, Strings.Upper(value)), item) == Apply(MakeContains(field, value), item)
    ensures Apply(MakeContains(field, value), item[field := StrV(Strings.Upper(s))]) ==
      Apply(MakeContains(field, value), item[field := StrV(s)])
  {
    Strings.LowerUpper(value);
    Strings.LowerUpper(s);
  }

  /** A string price compared with `>` against an int raises the `>` text, the stored value's type first. */
  lemma GreaterThanTypeError()
    ensures Apply(GreaterThan("price", IntV(5)), map["price" := StrV("abc")]) ==
      Err(TypeError("'>' not supported between instances of 'str' and 'int'"))
  {
    OrderingErrorTexts();
  }

  /** The predicate "this filter accepts the record". */
  function Passes(f: QueryFilter): Record -> bool {
    x => Apply(f, x) == Ok(true)
  }

  /** The predicate "every one of these filters accepts the record". */
  function PassesAll(filters: seq<QueryFilter>): Record -> bool {
    x => forall i :: 0 <= i < |filters| ==> Apply(filters[i], x) == Ok(true)
  }

  /** `[item for item in s if f(item)]`: the first filter call that raises ends the comprehension. */
  function Keep(f: QueryFilter, s: seq<Record>): (r: Result<seq<Record>, PyError>)
    ensures r.Err? <==> exists i :: 0 <= i < |s| && Apply(f, s[i]).Err?
    ensures r.Ok? ==> r.value == Seqs.Filter(s, Passes(f))
  {
    if s == [] then Ok([])
    else
      match Apply(f, s[0])
      case Err(e) => Err(e)
      case Ok(b) =>
        match Keep(f, s[1..])
        case Err(e) =>
          assert exists i :: 0 <= i < |s[1..]| && Apply(f, s[1..][i]).Err?;
          var i :| 0 <= i < |s[1..]| && Apply(f, s[1..][i]).Err?;
          assert s[i + 1] == s[1..][i];
          Err(e)
        case Ok(rest) =>
          assert forall i :: 1 <= i < |s| ==> s[i] == s[1..][i - 1];
          Ok((if b then [s[0]] else []) + rest)
  }

  /** The filters applied one after another, as `Database.query` does. */
  function QueryAll(s: seq<Record>, filters: seq<QueryFilter>): Result<seq<Record>, PyError>
    decreases |filters|
  {
    if filters == [] then Ok(s)
    else
      match Keep(filters[0], s)
      case Err(e) => Err(e)
      case Ok(t) => QueryAll(t, filters[1..])
  }

  /** A record passes a list of filters iff it passes the first and then the rest. */
  lemma PassesAllSplit(filters: seq<QueryFilter>, x: Record)
    requires filters != []
    ensures PassesAll(filters)(x) == (Passes(filters[0])(x) && PassesAll(filters[1..])(x))
  {
    if Passes(filters[0])(x) && PassesAll(filters[1..])(x) {
      forall j | 0 <= j < |filters| ensures Apply(filters[j], x) == Ok(true) {
        if j > 0 {
          assert filters[j] == filters[1..][j - 1];
        }
      }
    }
    if PassesAll(filters)(x) {
      forall j | 0 <= j < |filters[1..]| ensures Apply(filters[1..][j], x) == Ok(true) {
        assert filters[1..][j] == filters[j + 1];
      }
    }
  }

  /** A filter that raises on no record of `s` keeps exactly the records it accepts. */
  lemma KeepTotal(f: QueryFilter, s: seq<Record>)
    requires forall x :: x in s ==> Apply(f, x).Ok?
    ensures Keep(f, s) == Ok(Seqs.Filter(s, Passes(f)))
  {
    forall i | 0 <= i < |s| ensures Apply(f, s[i]).Ok? {
      assert s[i] in s;
    }
  }

  /** When no filter raises on any record, the query keeps exactly the records that pass every filter,
      in their original order; with no filters that is all of them. */
  lemma {:induction false} QueryKeepsPassing(s: seq<Record>, filters: seq<QueryFilter>)
    requires forall j, x :: 0 <= j < |filters| && x in s ==> Apply(filters[j], x).Ok?
    ensures QueryAll(s, filters) == Ok(Seqs.Filter(s, PassesAll(filters)))
    decreases |filters|
  {
    if filters == [] {
      Seqs.FilterAllPass(s, PassesAll(filters));
    } else {
      var f := filters[0];
      var rest := filters[1..];
      KeepTotal(f, s);
      var t := Seqs.Filter(s, Passes(f));
      Seqs.FilterSubset(s, Passes(f));
      forall j, x | 0 <= j < |rest| && x in t ensures Apply(rest[j], x).Ok? {
        assert rest[j] == filters[j + 1];
      }
      QueryKeepsPassing(t, rest);
      Seqs.FilterFilter(s, Passes(f), PassesAll(rest));
      forall i | 0 <= i < |s|
        ensures Seqs.And(Passes(f), PassesAll(rest))(s[i]) == PassesAll(filters)(s[i])
      {
        PassesAllSplit(filters, s[i]);
      }
      Seqs.FilterExt(s, Seqs.And(Passes(f), PassesAll(rest)), PassesAll(filters));
    }
  }

  /** A table of records and its query method. */
  class Database {
    const data: seq<Record>

    constructor (data: seq<Record>)
      ensures this.data == data
    {
      this.data := data;
    }

    /** `query(*filters)`: narrows the records filter by filter, in the order given. */
    method Query(filters: seq<QueryFilter>) returns (r: Result<seq<Record>, PyError>)
      ensures r == QueryAll(data, filters)
    {
      var results := data;
      for i := 0 to |filters|
        invariant QueryAll(data, filters) == QueryAll(results, filters[i..])
      {
        assert filters[i..][0] == filters[i] && filters[i..][1..] == filters[i + 1..];
        var kept := Keep(filters[i], results);
        if kept.Err? {
          return Err(kept.error);
        }
        results := kept.value;
      }
      return Ok(results);
    }
  }

  function ProductRecord(id: int, name: string, price: int, category: string): Record {
    map["id" := IntV(id), "name" := StrV(name), "price" := IntV(price), "category" := StrV(category)]
  }

  /** The example's five products. */
  function Products(): seq<Record> {
    [ProductRecord(1, "Laptop", 999, "Electronics"),
     ProductRecord(2, "Mouse", 29, "Electronics"),
     ProductRecord(3, "Desk", 299, "Furniture"),
     ProductRecord(4, "Chair", 199, "Furniture"),
     ProductRecord(5, "Keyboard", 79, "Electronics")]
  }

  /** The two filters of the first example query. */
  function ElectronicsQuery(): seq<QueryFilter> {
    [Equals("category", StrV("Electronics")), LessThan("price", IntV(100))]
  }

  /** Of the five products only the mouse and the keyboard are electronics under 100. */
  lemma ElectronicsVerdicts(i: nat)
    requires i < 5
    ensures forall j :: 0 <= j < 2 ==> Apply(ElectronicsQuery()[j], Products()[i]).Ok?
    ensures PassesAll(ElectronicsQuery())(Products()[i]) <==> i == 1 || i == 4
  {
    var fs := ElectronicsQuery();
    var p := Products()[i];
    assert "Furniture" != "Electronics" by { assert "Furniture"[0] != "Electronics"[0]; }
    assert p["category"] == StrV(if i == 2 || i == 3 then "Furniture" else "Electronics");
    assert p["price"] == IntV([999, 29, 299, 199, 79][i]);
    if PassesAll(fs)(p) {
      assert Apply(fs[0], p) == Ok(true);
      assert Apply(fs[1], p) == Ok(true);
    }
    if i == 1 || i == 4 {
      assert Apply(fs[0], p) == Ok(true);
      assert Apply(fs[1], p) == Ok(true);
    }
  }

  /** Electronics under 100 are the mouse and the keyboard. */
  lemma ElectronicsUnder100()
    ensures QueryAll(Products(), ElectronicsQuery()) == Ok([Products()[1], Products()[4]])
  {
    var ps := Products();
    var fs := ElectronicsQuery();
    forall j, x | 0 <= j < |fs| && x in ps ensures Apply(fs[j], x).Ok? {
      var i :| 0 <= i < 5 && ps[i] == x;
      ElectronicsVerdicts(i);
    }
    QueryKeepsPassing(ps, fs);
    var p := PassesAll(fs);
    ElectronicsVerdicts(0);
    ElectronicsVerdicts(1);
    ElectronicsVerdicts(2);
    ElectronicsVerdicts(3);
    ElectronicsVerdicts(4);
    FilterPicks(ps, p);
  }

  lemma FilterPicks<T>(s: seq<T>, p: T -> bool)
    requires |s| == 5 && !p(s[0]) && p(s[1]) && !p(s[2]) && !p(s[3]) && p(s[4])
    ensures Seqs.Filter(s, p) == [s[1], s[4]]
  {
    FilterFive(s, p);
  }

  /** Filtering a five-element list, element by element. */
  lemma FilterFive<T>(s: seq<T>, p: T -> bool)
    requires |s| == 5
    ensures Seqs.Filter(s, p) ==
      (if p(s[0]) then [s[0]] else []) + (if p(s[1]) then [s[1]] else []) + (if p(s[2]) then [s[2]] else []) +
      (if p(s[3]) then [s[3]] else []) + (if p(s[4]) then [s[4]] else [])
  {
    assert s == [s[0]] + [s[1]] + [s[2]] + [s[3]] + [s[4]];
    Seqs.FilterConcat([s[0]] + [s[1]] + [s[2]] + [s[3]], [s[4]], p);
    Seqs.FilterConcat([s[0]] + [s[1]] + [s[2]], [s[3]], p);
    Seqs.FilterConcat([s[0]] + [s[1]], [s[2]], p);
    Seqs.FilterConcat([s[0]], [s[1]], p);
    assert Seqs.Filter([s[4]], p) == if p(s[4]) then [s[4]] else [];
    assert Seqs.Filter([s[3]], p) == if p(s[3]) then [s[3]] else [];
    assert Seqs.Filter([s[2]], p) == if p(s[2]) then [s[2]] else [];
    assert Seqs.Filter([s[1]], p) == if p(s[1]) then [s[1]] else [];
    assert Seqs.Filter([s[0]], p) == if p(s[0]) then [s[0]] else [];
  }

  // ----- Middleware pipeline -----

  datatype Request = Request(verb: string, path: string, headers: map<string, string>)

  datatype Response = Response(status: int, body: string)

  /** The middleware objects; a rate limiter carries its request counter and its limit. */
  datatype Middleware = Logging | Auth | RateLimit(requestCount: nat, limit: nat)

  /** `RateLimitMiddleware()`: no requests seen yet, a limit of 5. */
  const NewRateLimit: Middleware := RateLimit(0, 5)

  /** Whether a middleware hands the request on (a rate limiter judges by its count after this request). */
  predicate Admits(m: Middleware, req: Request) {
    match m
    case Logging => true
    case Auth => "Authorization" in req.headers
    case RateLimit(c, limit) => c + 1 <= limit
  }

  /** The answer of a middleware that stops the request. */
  function Rejection(m: Middleware): Response {
    match m
    case Logging => Response(200, "Success")
    case Auth => Response(401, "Unauthorized")
    case RateLimit(_, _) => Response(429, "Too Many Requests")
  }

  /** A middleware after it has seen one more request: only a rate limiter changes. */
  function Tick(m: Middleware): Middleware {
    if m.RateLimit? then m.(requestCount := m.requestCount + 1) else m
  }

  /** The pipeline with the middlewares at positions `lo` to `hi - 1` having seen one more request. */
  function Ticked(mws: seq<Middleware>, lo: nat, hi: nat): (r: seq<Middleware>)
    ensures |r| == |mws|
    ensures forall k :: 0 <= k < |mws| ==> r[k] == if lo <= k < hi then Tick(mws[k]) else mws[k]
  {
    seq(|mws|, k requires 0 <= k < |mws| => if lo <= k < hi then Tick(mws[k]) else mws[k])
  }

  /** The position of the first middleware from `i` on that stops the request, or `|mws|`. */
  function FirstStop(mws: seq<Middleware>, i: nat, req: Request): (k: nat)
    requires i <= |mws|
    ensures i <= k <= |mws|
    ensures forall j :: i <= j < k ==> Admits(mws[j], req)
    ensures k < |mws| ==> !Admits(mws[k], req)
    decreases |mws| - i
  {
    if i == |mws| then i else if !Admits(mws[i], req) then i else FirstStop(mws, i + 1, req)
  }

  /** `run_middleware(index, req)`: the response, and the pipeline with each middleware the request
      reached having counted it. */
  function Run(mws: seq<Middleware>, index: nat, req: Request): (r: (Response, seq<Middleware>))
    decreases |mws| - index
  {
    if index >= |mws| then (Response(200, "Success"), mws)
    else
      match mws[index]
      case Logging => Run(mws, index + 1, req)
      case Auth =>
        if "Authorization" !in req.headers then (Response(401, "Unauthorized"), mws)
        else Run(mws, index + 1, req)
      case RateLimit(c, limit) =>
        var next := mws[index := RateLimit(c + 1, limit)];
        if c + 1 > limit then (Response(429, "Too Many Requests"), next)
        else Run(next, index + 1, req)
  }

  lemma {:induction false} FirstStopFrame(mws: seq<Middleware>, other: seq<Middleware>, i: nat, req: Request)
    requires i <= |mws| == |other|
    requires forall j :: i <= j < |mws| ==> mws[j] == other[j]
    ensures FirstStop(mws, i, req) == FirstStop(other, i, req)
    decreases |mws| - i
  {
    if i < |mws| {
      FirstStopFrame(mws, other, i + 1, req);
    }
  }

  /** The pipeline answers 200 "Success" when every middleware admits the request, and otherwise with
      the rejection of the first one that does not, which the middlewares after it never see; every
      middleware up to and including that one counts the request. */
  lemma {:induction false} RunOutcome(mws: seq<Middleware>, i: nat, req: Request)
    requires i <= |mws|
    ensures var k := FirstStop(mws, i, req);
      Run(mws, i, req) ==
        if k == |mws| then (Response(200, "Success"), Ticked(mws, i, k))
        else (Rejection(mws[k]), Ticked(mws, i, k + 1))
    decreases |mws| - i
  {
    var k := FirstStop(mws, i, req);
    if i == |mws| {
      assert Ticked(mws, i, k) == mws;
    } else {
      var m := mws[i];
      var next := mws[i := Tick(m)];
      if !Admits(m, req) {
        assert k == i;
        if m.Auth? {
          assert Ticked(mws, i, k + 1) == mws;
        } else {
          assert Ticked(mws, i, k + 1) == next;
        }
      } else {
        FirstStopFrame(mws, next, i + 1, req);
        RunOutcome(next, i + 1, req);
        var hi := if k == |mws| then k else k + 1;
        assert Ticked(next, i + 1, hi) == Ticked(mws, i, hi);
        if m.Logging? || m.Auth? {
          assert next == mws;
        }
      }
    }
  }

  /** A server and its pipeline. */
  class Server {
    var middlewares: seq<Middleware>

    constructor ()
      ensures middlewares == []
    {
      middlewares := [];
    }

    /** `use`: adds a middleware at the end of the pipeline. */
    method Use(m: Middleware)
      modifies this
      ensures middlewares == old(middlewares) + [m]
    {
      middlewares := middlewares + [m];
    }

    /** `handle_request`: runs the pipeline from its first middleware. */
    method HandleRequest(req: Request) returns (resp: Response)
      modifies this
      ensures (resp, middlewares) == Run(old(middlewares), 0, req)
    {
      var r := Run(middlewares, 0, req);
      resp := r.0;
      middlewares := r.1;
    }
  }

  /** The responses to a series of requests, and the pipeline afterwards. */
  function Serve(mws: seq<Middleware>, reqs: seq<Request>): (seq<Response>, seq<Middleware>)
    decreases |reqs|
  {
    if reqs == [] then ([], mws)
    else
      var (resp, next) := Run(mws, 0, reqs[0]);
      var (rest, last) := Serve(next, reqs[1..]);
      ([resp] + rest, last)
  }

  /** The example's pipeline, a rate limiter that has seen `count` requests between logging and auth. */
  function ExamplePipeline(count: nat): seq<Middleware> {
    [Logging, RateLimit(count, 5), Auth]
  }

  /** One request through the example's pipeline: the limiter counts it, answers 429 once the
      count passes 5, and otherwise auth decides. */
  lemma ExampleStep(count: nat, req: Request)
    ensures Run(ExamplePipeline(count), 0, req) ==
      (if count + 1 > 5 then Response(429, "Too Many Requests")
       else if "Authorization" in req.headers then Response(200, "Success")
       else Response(401, "Unauthorized"),
       ExamplePipeline(count + 1))
  {
    var mws, next := ExamplePipeline(count), ExamplePipeline(count + 1);
    assert mws[1 := RateLimit(count + 1, 5)] == next;
    assert Run(mws, 0, req) == Run(mws, 1, req);
    if count + 1 <= 5 {
      assert Run(mws, 1, req) == Run(next, 2, req);
      if "Authorization" in req.headers {
        assert Run(next, 2, req) == Run(next, 3, req);
      }
    }
  }

  /** The rate limiter counts every request, rejected ones included, and from the sixth request on
      every answer is 429 whatever the headers; before that the answer is auth's. */
  lemma {:induction false} RateLimitFromSixth(count: nat, reqs: seq<Request>)
    ensures |Serve(ExamplePipeline(count), reqs).0| == |reqs|
    ensures Serve(ExamplePipeline(count), reqs).1 == ExamplePipeline(count + |reqs|)
    ensures forall k :: 0 <= k < |reqs| ==>
      Serve(ExamplePipeline(count), reqs).0[k] ==
        if count + k + 1 > 5 then Response(429, "Too Many Requests")
        else if "Authorization" in reqs[k].headers then Response(200, "Success")
        else Response(401, "Unauthorized")
    decreases |reqs|
  {
    if reqs != [] {
      ExampleStep(count, reqs[0]);
      RateLimitFromSixth(count + 1, reqs[1..]);
      forall k | 1 <= k < |reqs| ensures reqs[k] == reqs[1..][k - 1] { }
    }
  }

  /** The two requests of the example: the authorized one succeeds, the other is refused with 401. */
  method ServerExample() returns (r1: Response, r2: Response)
    ensures r1 == Response(200, "Success")
    ensures r2 == Response(401, "Unauthorized")
  {
    var server := new Server();
    server.Use(Logging);
    server.Use(NewRateLimit);
    server.Use(Auth);
    var mws, next := ExamplePipeline(0), ExamplePipeline(1);
    assert server.middlewares == mws;
    var req1 := Request("GET", "/api/users", map["Authorization" := "Bearer token123"]);
    assert mws[1 := RateLimit(1, 5)] == next;
    assert Run(next, 3, req1) == (Response(200, "Success"), next);
    assert Run(next, 2, req1) == Run(next, 3, req1);
    assert Run(mws, 1, req1) == Run(next, 2, req1);
    r1 := server.HandleRequest(req1);
    var req2 := Request("POST", "/api/posts", map[]);
    var last := ExamplePipeline(2);
    assert next[1 := RateLimit(2, 5)] == last;
    assert Run(last, 2, req2) == (Response(401, "Unauthorized"), last);
    assert Run(next, 1, req2) == Run(last, 2, req2);
    r2 := server.HandleRequest(req2);
  }

  // ----- Commands with undo -----

  /** The list the commands work on; every command built over it shares it. */
  class TaskList<T> {
    var items: seq<T>

    constructor ()
      ensures items == []
    {
      items := [];
    }
  }

  datatype CommandKind = AddKind | RemoveKind

  /** Running a command on `items`: the outcome, the new items and the index it records.
      `AddCommand` appends; `RemoveCommand` records where the first occurrence was and takes it out,
      raising ValueError when there is none. */
  function Executed<T(==)>(kind: CommandKind, items: seq<T>, item: T, index: Option<nat>): (r: (Result<(), PyError>, seq<T>, Option<nat>))
    ensures kind == AddKind ==> r == (Ok(()), items + [item], index)
    ensures kind == RemoveKind ==> (r.0.Err? <==> item !in items)
    ensures kind == RemoveKind && r.0.Err? ==> r.0.error.ValueError? && r.1 == items && r.2 == index
    ensures kind == RemoveKind && r.0.Ok? ==>
      && r.2.Some? && r.2.value < |items| && items[r.2.value] == item && item !in items[..r.2.value]
      && r.1 == items[..r.2.value] + items[r.2.value + 1..]
  {
    match kind
    case AddKind => (Ok(()), items + [item], index)
    case RemoveKind =>
      match Seqs.IndexOf(items, item)
      case None => (Err(ValueError("list.index(x): x not in list")), items, index)
      case Some(i) => (Ok(()), Seqs.RemoveFirst(items, item).value, Some(i))
  }

  /** Undoing a command on `items`: the outcome and the new items. `AddCommand` removes the first
      occurrence of its item (ValueError if none); `RemoveCommand` inserts it back at the recorded
      index (TypeError if it never ran, as the index is still None). */
  function Undone<T(==)>(kind: CommandKind, items: seq<T>, item: T, index: Option<nat>): (r: (Result<(), PyError>, seq<T>))
    ensures kind == AddKind ==> (r.0.Err? <==> item !in items)
    ensures kind == RemoveKind ==> (r.0.Err? <==> index.None?)
    ensures r.0.Err? ==> r.1 == items
    ensures kind == AddKind && r.0.Ok? ==> |r.1| == |items| - 1 && multiset(r.1) == multiset(items) - multiset{item}
    ensures kind == RemoveKind && r.0.Ok? ==>
      && |r.1| == |items| + 1
      && r.1[Seqs.InsertPos(index.value, |items|)] == item
      && r.1[..Seqs.InsertPos(index.value, |items|)] + r.1[Seqs.InsertPos(index.value, |items|) + 1..] == items
  {
    match kind
    case AddKind =>
      (match Seqs.RemoveFirst(items, item)
       case None => (Err(ValueError("list.remove(x): x not in list")), items)
       case Some(rest) => (Ok(()), rest))
    case RemoveKind =>
      match index
      case None => (Err(TypeError("'NoneType' object cannot be interpreted as an integer")), items)
      case Some(i) => (Ok(()), Seqs.InsertAt(items, i, item))
  }

  /** A remove followed by its undo gives back the list exactly. */
  lemma RemoveUndoRestores<T>(items: seq<T>, item: T, index: Option<nat>)
    requires item in items
    ensures var e := Executed(RemoveKind, items, item, index);
      e.0.Ok? && Undone(RemoveKind, e.1, item, e.2) == (Ok(()), items)
  {
    Seqs.RemoveThenInsert(items, item);
  }

  /** An add followed by its undo gives back the list exactly when the list holds no equal item, or
      holds only equal items from the first of them on: undo takes out the first occurrence. */
  lemma AddUndoRestores<T>(items: seq<T>, item: T, index: Option<nat>)
    ensures var e := Executed(AddKind, items, item, index);
      var u := Undone(AddKind, e.1, item, e.2);
      u.0.Ok? && (u.1 == items <==> item !in items || forall k :: Seqs.IndexOf(items, item).value <= k < |items| ==> items[k] == item)
  {
    Seqs.AppendThenRemove(items, item);
  }

  /** An undo that would not restore: adding "a" to ["a", "b"] and undoing leaves ["b", "a"]. */
  lemma AddUndoReorders()
    ensures Undone(AddKind, Executed(AddKind, ['a', 'b'], 'a', None).1, 'a', None).1 == ['b', 'a']
  {
    assert Seqs.IndexOf(['a', 'b', 'a'], 'a') == Some(0);
    assert ['a', 'b', 'a'][1..] == ['b', 'a'];
  }

  /** `AddCommand(receiver, item)` or `RemoveCommand(receiver, item)`. */
  class Command<T(==)> {
    const kind: CommandKind
    const receiver: TaskList<T>
    const item: T
    /** Where `RemoveCommand` found its item; None until it has run (and for `AddCommand`). */
    var index: Option<nat>

    constructor Add(receiver: TaskList<T>, item: T)
      ensures kind == AddKind && this.receiver == receiver && this.item == item && index == None
    {
      kind := AddKind;
      this.receiver := receiver;
      this.item := item;
      index := None;
    }

    constructor Remove(receiver: TaskList<T>, item: T)
      ensures kind == RemoveKind && this.receiver == receiver && this.item == item && index == None
    {
      kind := RemoveKind;
      this.receiver := receiver;
      this.item := item;
      index := None;
    }

    /** `command()`. */
    method Execute() returns (r: Result<(), PyError>)
      modifies this, receiver
      ensures (r, receiver.items, index) == Executed(kind, old(receiver.items), item, old(index))
    {
      var e := Executed(kind, receiver.items, item, index);
      r := e.0;
      receiver.items := e.1;
      index := e.2;
    }

    /** `command.undo()`. */
    method Undo() returns (r: Result<(), PyError>)
      modifies receiver
      ensures (r, receiver.items) == Undone(kind, old(receiver.items), item, index)
    {
      var u := Undone(kind, receiver.items, item, index);
      r := u.0;
      receiver.items := u.1;
    }
  }

  /** Running a remove command on a list holding its item and undoing it leaves the list as it was. */
  method RemoveRoundTrip<T>(c: Command<T>)
    requires c.kind == RemoveKind && c.item in c.receiver.items
    modifies c, c.receiver
    ensures c.receiver.items == old(c.receiver.items)
  {
    RemoveUndoRestores(c.receiver.items, c.item, c.index);
    var r1 := c.Execute();
    var r2 := c.Undo();
  }

  /** The history of executed commands, undone last first. */
  class CommandManager<T(==)> {
    var history: seq<Command<T>>

    constructor ()
      ensures history == []
    {
      history := [];
    }

    /** `execute`: runs the command and, unless it raised, records it. */
    method Execute(c: Command<T>) returns (r: Result<(), PyError>)
      modifies this, c, c.receiver
      ensures (r, c.receiver.items, c.index) == Executed(c.kind, old(c.receiver.items), c.item, old(c.index))
      ensures history == if r.Ok? then old(history) + [c] else old(history)
    {
      r := c.Execute();
      if r.Ok? {
        history := history + [c];
      }
    }

    /** `undo`: pops the most recent command and undoes it; with no history it does nothing. */
    method Undo() returns (r: Result<(), PyError>)
      modifies this, set c | c in history :: c.receiver
      ensures old(history) == [] ==> r.Ok? && history == []
      ensures old(history) != [] ==>
        var c := old(history)[|old(history)| - 1];
        && history == old(history)[..|old(history)| - 1]
        && (r, c.receiver.items) == Undone(c.kind, old(c.receiver.items), c.item, c.index)
        && forall d :: d in old(history) && d.receiver != c.receiver ==> d.receiver.items == old(d.receiver.items)
    {
      if history == [] {
        return Ok(());
      }
      var c := history[|history| - 1];
      history := history[..|history| - 1];
      r := c.Undo();
    }
  }

  /** Undoing the add of an item the list did not hold before takes exactly that item off the end. */
  lemma UndoFreshAdd<T>(s: seq<T>, x: T, index: Option<nat>)
    requires x !in s
    ensures Undone(AddKind, s + [x], x, index) == (Ok(()), s)
  {
    Seqs.AppendThenRemove(s, x);
  }

  /** The example's setup: a manager that has executed adds of "Task 1", "Task 2" and "Task 3". */
  method ThreeAdds() returns (list: TaskList<string>, manager: CommandManager<string>)
    ensures fresh(list) && fresh(manager)
    ensures list.items == ["Task 1", "Task 2", "Task 3"] && |manager.history| == 3
    ensures forall i :: 0 <= i < 3 ==>
      && manager.history[i].receiver == list && manager.history[i].kind == AddKind
      && manager.history[i].item == ["Task 1", "Task 2", "Task 3"][i]
  {
    list := new TaskList<string>();
    manager := new CommandManager<string>();
    var c1 := new Command.Add(list, "Task 1");
    var c2 := new Command.Add(list, "Task 2");
    var c3 := new Command.Add(list, "Task 3");
    var r := manager.Execute(c1);
    r := manager.Execute(c2);
    r := manager.Execute(c3);
  }

  /** Undoing the latest command when it is the add of a fresh item to `list`, and every
      recorded command acts on `list`, takes that item off the end. */
  method UndoFreshLast<T>(list: TaskList<T>, manager: CommandManager<T>, before: seq<T>)
    requires manager.history != [] && list.items == before + [manager.history[|manager.history| - 1].item]
    requires manager.history[|manager.history| - 1].kind == AddKind
    requires manager.history[|manager.history| - 1].item !in before
    requires forall i :: 0 <= i < |manager.history| ==> manager.history[i].receiver == list
    modifies manager, list
    ensures list.items == before && manager.history == old(manager.history)[..|old(manager.history)| - 1]
  {
    var c := manager.history[|manager.history| - 1];
    UndoFreshAdd(before, c.item, c.index);
    assert (set d | d in manager.history :: d.receiver) == {list};
    var r := manager.Undo();
  }

  /** The example: three adds, then two undos, leave only "Task 1". */
  method CommandExample() returns (tasks: seq<string>)
    ensures tasks == ["Task 1"]
  {
    var t1, t2, t3 := "Task 1", "Task 2", "Task 3";
    assert t1 != t3 && t2 != t3 && t1 != t2 by {
      assert t1[5] != t3[5] && t2[5] != t3[5] && t1[5] != t2[5];
    }
    var list, manager := ThreeAdds();
    UndoFreshLast(list, manager, [t1, t2]);
    UndoFreshLast(list, manager, [t1]);
    tasks := list.items;
  }
}
