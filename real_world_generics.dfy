/** The applications in `5_real_world_examples.py`: an API response wrapper, a CRUD repository,
    an observable value, a builder, a state machine and a chain of validators. */
module RealWorldGenerics {
  import opened Wrappers
  import opened OrderedDict
  import Seqs
  import Strings

  // ----- API response -----

  datatype Status = Success | Error | Loading

  /** An API response; its creation timestamp is not part of this model. */
  datatype ApiResponse<T> = ApiResponse(status: Status, data: Option<T>, error: Option<string>) {
    predicate IsSuccess() {
      status == Success
    }

    /** The payload, handed out only by a successful response. */
    function GetData(): (r: Option<T>)
      ensures !IsSuccess() ==> r == None
      ensures IsSuccess() ==> r == data
    {
      if IsSuccess() then data else None
    }
  }

  datatype User = User(id: int, name: string, email: string)

  /** The simulated user lookup: positive ids find Alice, every other id is "User not found". */
  function FetchUser(userId: int): (r: ApiResponse<User>)
    ensures r.IsSuccess() <==> userId > 0
    ensures r.IsSuccess() ==> r.GetData() == Some(User(userId, "Alice", "alice@example.com"))
    ensures !r.IsSuccess() ==> r.status == Error && r.error == Some("User not found") && r.GetData() == None
  {
    if userId > 0 then ApiResponse(Success, Some(User(userId, "Alice", "alice@example.com")), None)
    else ApiResponse(Error, None, Some("User not found"))
  }

  datatype ApiProduct = ApiProduct(id: int, name: string, price: real)

  /** The simulated product listing: always successful, three products with ids 1 to 3. */
  function FetchProducts(): (r: ApiResponse<seq<ApiProduct>>)
    ensures r.IsSuccess() && r.GetData().Some?
    ensures var ps := r.GetData().value; |ps| == 3 && forall i :: 0 <= i < 3 ==> ps[i].id == i + 1
  {
    ApiResponse(Success, Some([ApiProduct(1, "Laptop", 999.99), ApiProduct(2, "Mouse", 29.99),
                               ApiProduct(3, "Keyboard", 79.99)]), None)
  }

  // ----- CRUD repository -----

  /** A stored object: its `id` (None until the repository assigns one) and its other fields. */
  datatype Entity<T> = Entity(id: Option<int>, fields: T)

  class CrudRepository<T> {
    var storage: Dict<int, Entity<T>>
    var nextId: int

    ghost predicate Valid()
      reads this
    {
      && Wf(storage)
      && nextId >= 1
      && forall i :: 0 <= i < |storage| ==> storage[i].1.id == Some(storage[i].0)
    }

    constructor ()
      ensures Valid() && storage == [] && nextId == 1
    {
      storage := [];
      nextId := 1;
    }

    /** Gives an item without an id the next id, then stores it under its id, replacing any entry
        already there. An item that has an id keeps it and the counter does not move. */
    method Create(item: Entity<T>) returns (created: Entity<T>)
      requires Valid()
      modifies this
      ensures Valid()
      ensures item.id.None? ==> created == item.(id := Some(old(nextId))) && nextId == old(nextId) + 1
      ensures item.id.Some? ==> created == item && nextId == old(nextId)
      ensures created.id.Some? && storage == Set(old(storage), created.id.value, created)
    {
      created := item;
      if item.id.None? {
        created := item.(id := Some(nextId));
        nextId := nextId + 1;
      }
      SetWf(storage, created.id.value, created);
      SetEntries(storage, created.id.value, created);
      storage := Set(storage, created.id.value, created);
    }

    function GetById(id: int): (r: Option<Entity<T>>)
      reads this
      ensures r.None? <==> id !in Keys(storage)
      ensures r.Some? ==> (id, r.value) in storage
    {
      Get(storage, id)
    }

    /** All stored items in insertion order. */
    function GetAll(): (r: seq<Entity<T>>)
      reads this
      ensures |r| == |storage| && forall i :: 0 <= i < |storage| ==> r[i] == storage[i].1
    {
      Values(storage)
    }

    /** Replaces the entry for the item's id when there is one, and says whether there was. */
    method Update(item: Entity<T>) returns (updated: bool)
      requires Valid()
      modifies this
      ensures Valid() && nextId == old(nextId)
      ensures updated <==> item.id.Some? && item.id.value in Keys(old(storage))
      ensures updated ==>
        exists i :: 0 <= i < |old(storage)| && old(storage)[i].0 == item.id.value &&
          storage == old(storage)[i := (item.id.value, item)]
      ensures !updated ==> storage == old(storage)
    {
      updated := item.id.Some? && item.id.value in Keys(storage);
      if updated {
        var i :| 0 <= i < |storage| && Keys(storage)[i] == item.id.value;
        SetPresent(storage, item.id.value, item, i);
        SetWf(storage, item.id.value, item);
        SetEntries(storage, item.id.value, item);
        storage := Set(storage, item.id.value, item);
      }
    }

    /** Deletes the entry for `id` when there is one, and says whether there was. */
    method Delete(id: int) returns (deleted: bool)
      requires Valid()
      modifies this
      ensures Valid() && nextId == old(nextId)
      ensures deleted <==> id in Keys(old(storage))
      ensures storage == Remove(old(storage), id)
      ensures |storage| == if deleted then |old(storage)| - 1 else |old(storage)|
    {
      deleted := id in Keys(storage);
      RemoveCount(storage, id);
      RemoveWf(storage, id);
      RemoveEntries(storage, id);
      storage := Remove(storage, id);
    }

    function Count(): (n: nat)
      reads this
      ensures n == |Keys(storage)|
    {
      |storage|
    }

    /** The stored items satisfying `matches`, in insertion order. */
    function Find(matches: Entity<T> -> bool): (r: seq<Entity<T>>)
      reads this
      ensures forall i :: 0 <= i < |r| ==> matches(r[i])
      ensures multiset(r) <= multiset(GetAll())
      ensures forall i :: 0 <= i < |storage| && matches(storage[i].1) ==>
        multiset(r)[storage[i].1] == multiset(GetAll())[storage[i].1]
      ensures exists idx ::
                Seqs.PicksInOrder(GetAll(), idx, r) &&
                forall i :: 0 <= i < |storage| && matches(storage[i].1) ==> i in idx
      ensures r == Seqs.Filter(GetAll(), matches)
    {
      var all := GetAll();
      Seqs.FilterCounts(all, matches);
      Seqs.FilterInOrder(all, matches);
      assert forall i :: 0 <= i < |storage| ==> all[i] == storage[i].1;
      Seqs.Filter(all, matches)
    }
  }

  datatype TaskFields = TaskFields(title: string, completed: bool, priority: int)

  /** The high-priority query of the task example. */
  predicate HighPriority(t: Entity<TaskFields>) {
    t.fields.priority >= 2 && !t.fields.completed
  }

  /** The task example: three tasks get ids 1 to 3, and the first two are the high-priority ones. */
  method TaskExample() returns (all: seq<Entity<TaskFields>>, high: seq<Entity<TaskFields>>)
    ensures |all| == 3 && all[0].id == Some(1) && all[1].id == Some(2) && all[2].id == Some(3)
    ensures high == [all[0], all[1]]
  {
    var repo := new CrudRepository<TaskFields>();
    var t1 := repo.Create(Entity(None, TaskFields("Write documentation", false, 2)));
    var t2 := repo.Create(Entity(None, TaskFields("Fix bug", false, 3)));
    var t3 := repo.Create(Entity(None, TaskFields("Review code", true, 1)));
    ThreeNewKeys(t1, t2, t3);
    all := repo.GetAll();
    ListThree(repo.storage, t1, t2, t3, all);
    high := repo.Find(HighPriority);
    HighTasks(t1, t2, t3);
  }

  /** The values of a three-entry list, in order. */
  lemma ListThree<V>(storage: Dict<int, V>, a: V, b: V, c: V, all: seq<V>)
    requires storage == [(1, a), (2, b), (3, c)]
    requires |all| == |storage| && forall i :: 0 <= i < |storage| ==> all[i] == storage[i].1
    ensures all == [a, b, c]
  {
  }

  /** Of the three example tasks, the first two are the high-priority ones. */
  lemma HighTasks(a: Entity<TaskFields>, b: Entity<TaskFields>, c: Entity<TaskFields>)
    requires a.fields == TaskFields("Write documentation", false, 2)
    requires b.fields == TaskFields("Fix bug", false, 3)
    requires c.fields == TaskFields("Review code", true, 1)
    ensures Seqs.Filter([a, b, c], HighPriority) == [a, b]
  {
    FilterThree(a, b, c, HighPriority);
  }

  /** Storing three items under the new keys 1, 2 and 3 lists them in that order. */
  lemma ThreeNewKeys<V>(a: V, b: V, c: V)
    ensures Set(Set(Set([], 1, a), 2, b), 3, c) == [(1, a), (2, b), (3, c)]
  {
    SetAbsent([], 1, a);
    assert [] + [(1, a)] == [(1, a)];
    SetAbsent([(1, a)], 2, b);
    assert [(1, a)] + [(2, b)] == [(1, a), (2, b)];
    SetAbsent([(1, a), (2, b)], 3, c);
    assert [(1, a), (2, b)] + [(3, c)] == [(1, a), (2, b), (3, c)];
  }

  /** Filtering a three-element list. */
  lemma FilterThree<T>(a: T, b: T, c: T, p: T -> bool)
    ensures Seqs.Filter([a, b, c], p) ==
      (if p(a) then [a] else []) + (if p(b) then [b] else []) + (if p(c) then [c] else [])
  {
    assert [c][1..] == [];
    assert Seqs.Filter([c], p) == (if p(c) then [c] else []) + Seqs.Filter([], p);
    assert [b, c][1..] == [c];
    assert Seqs.Filter([b, c], p) == (if p(b) then [b] else []) + Seqs.Filter([c], p);
    assert [a, b, c][1..] == [b, c];
    assert Seqs.Filter([a, b, c], p) == (if p(a) then [a] else []) + Seqs.Filter([b, c], p);
  }

  // ----- Observable -----

  /** A value with listeners. Listeners only print, so each call is recorded in `notified`. */
  class Observable<T(==), L> {
    var value: T
    var listeners: seq<L>
    var notified: seq<(L, T)>

    constructor (initial: T)
      ensures value == initial && listeners == [] && notified == []
    {
      value := initial;
      listeners := [];
      notified := [];
    }

    function Get(): T
      reads this
    {
      value
    }

    /** Always stores `newValue`; notifies the listeners only when it differs from the old value. */
    method Set(newValue: T)
      modifies this
      ensures value == newValue && listeners == old(listeners)
      ensures notified == old(notified) + if old(value) != newValue then Seqs.Notifications(listeners, newValue) else []
    {
      var oldValue := value;
      value := newValue;
      if oldValue != newValue {
        Notify();
      }
    }

    method Subscribe(listener: L)
      modifies this
      ensures listeners == old(listeners) + [listener]
      ensures value == old(value) && notified == old(notified)
    {
      listeners := listeners + [listener];
    }

    method Notify()
      modifies this
      ensures notified == old(notified) + Seqs.Notifications(listeners, value)
      ensures value == old(value) && listeners == old(listeners)
    {
      var ls := listeners;
      for i := 0 to |ls|
        invariant listeners == ls && value == old(value)
        invariant notified == old(notified) + Seqs.Notifications(ls[..i], value)
      {
        Seqs.NotificationsSnoc(ls[..i], ls[i], value);
        assert ls[..i + 1] == ls[..i] + [ls[i]];
        notified := notified + [(ls[i], value)];
      }
      assert ls[..|ls|] == ls;
    }
  }

  datatype Reading = HighTemperature | LowTemperature | NormalTemperature

  /** What the temperature listener reports for a reading. */
  function Classify(temp: real): (r: Reading)
    ensures r == HighTemperature <==> temp > 30.0
    ensures r == LowTemperature <==> temp <= 30.0 && temp < 10.0
  {
    if temp > 30.0 then HighTemperature else if temp < 10.0 then LowTemperature else NormalTemperature
  }

  /** The temperature monitor: three changes from 20.0, each reaching the one listener. */
  method TemperatureExample() returns (notified: seq<(string, real)>)
    ensures notified == [("on_temp_change", 25.0), ("on_temp_change", 35.0), ("on_temp_change", 5.0)]
    ensures Classify(notified[0].1) == NormalTemperature && Classify(notified[1].1) == HighTemperature
    ensures Classify(notified[2].1) == LowTemperature
  {
    var temperature := new Observable<real, string>(20.0);
    temperature.Subscribe("on_temp_change");
    temperature.Set(25.0);
    temperature.Set(35.0);
    temperature.Set(5.0);
    notified := temperature.notified;
  }

  // ----- Builder -----

  /** A builder: a factory plus configuration actions, applied in the order they were added.
      Actions that mutate the built object are modelled as functions returning the updated value. */
  class Builder<T> {
    const factory: () -> T
    var actions: seq<T -> T>

    constructor (factory: () -> T)
      ensures this.factory == factory && actions == []
    {
      this.factory := factory;
      actions := [];
    }

    /** Appends an action and returns the builder itself, for chaining. */
    method WithAction(action: T -> T) returns (self: Builder<T>)
      modifies this
      ensures self == this && actions == old(actions) + [action]
    {
      actions := actions + [action];
      self := this;
    }

    /** A fresh object from the factory with every action applied, first added first. */
    method Build() returns (obj: T)
      ensures obj == Seqs.ApplyAll(actions, factory())
    {
      obj := factory();
      for i := 0 to |actions|
        invariant obj == Seqs.ApplyAll(actions[..i], factory())
      {
        assert actions[..i + 1] == actions[..i] + [actions[i]];
        Seqs.ApplyAllSnoc(actions[..i], actions[i], factory());
        obj := actions[i](obj);
      }
      assert actions[..|actions|] == actions;
    }
  }

  datatype Email = Email(to: string, subject: string, body: string, attachments: seq<string>)

  /** The blank email the example's factory makes. */
  function BlankEmail(): Email {
    Email("", "", "", [])
  }

  /** The four actions of the email example. */
  function SetTo(e: Email): Email { e.(to := "alice@example.com") }
  function SetSubject(e: Email): Email { e.(subject := "Hello") }
  function SetBody(e: Email): Email { e.(body := "This is a test email") }
  function AttachPdf(e: Email): Email { e.(attachments := e.attachments + ["document.pdf"]) }

  /** Applying the four actions in order to a blank email fills in every field. */
  lemma EmailActions()
    ensures Seqs.ApplyAll([SetTo, SetSubject, SetBody, AttachPdf], BlankEmail())
         == Email("alice@example.com", "Hello", "This is a test email", ["document.pdf"])
  {
    var fs: seq<Email -> Email> := [SetTo, SetSubject, SetBody, AttachPdf];
    var e1 := SetTo(BlankEmail());
    var e2 := SetSubject(e1);
    var e3 := SetBody(e2);
    assert fs[1..] == [SetSubject, SetBody, AttachPdf];
    assert Seqs.ApplyAll(fs, BlankEmail()) == Seqs.ApplyAll([SetSubject, SetBody, AttachPdf], e1);
    assert [SetSubject, SetBody, AttachPdf][1..] == [SetBody, AttachPdf];
    assert Seqs.ApplyAll([SetSubject, SetBody, AttachPdf], e1) == Seqs.ApplyAll([SetBody, AttachPdf], e2);
    assert [SetBody, AttachPdf][1..] == [AttachPdf];
    assert Seqs.ApplyAll([SetBody, AttachPdf], e2) == Seqs.ApplyAll([AttachPdf], e3);
    assert [AttachPdf][1..] == [];
    assert Seqs.ApplyAll([AttachPdf], e3) == AttachPdf(e3);
    assert [] + ["document.pdf"] == ["document.pdf"];
  }

  /** The email example: four actions on a blank email. */
  method EmailExample() returns (email: Email)
    ensures email == Email("alice@example.com", "Hello", "This is a test email", ["document.pdf"])
  {
    var b := new Builder(BlankEmail);
    var _ := b.WithAction(SetTo);
    var _ := b.WithAction(SetSubject);
    var _ := b.WithAction(SetBody);
    var _ := b.WithAction(AttachPdf);
    assert b.actions == [SetTo, SetSubject, SetBody, AttachPdf];
    email := b.Build();
    EmailActions();
  }

  // ----- State machine -----

  /** The state after `event` from `s`: the registered target, or `s` when there is none. */
  function Step<S(==)>(transitions: map<(S, string), S>, s: S, event: string): S {
    if (s, event) in transitions then transitions[(s, event)] else s
  }

  /** The state after a sequence of events. */
  function Run<S(==)>(transitions: map<(S, string), S>, s: S, events: seq<string>): S
    decreases |events|
  {
    if events == [] then s else Run(transitions, Step(transitions, s, events[0]), events[1..])
  }

  /** A state machine; its transition callback only prints, so each call is recorded in `log`. */
  class StateMachine<S(==), C> {
    var current: S
    var transitions: map<(S, string), S>
    var callback: Option<C>
    var log: seq<(C, S, S)>

    constructor (initial: S)
      ensures current == initial && transitions == map[] && callback == None && log == []
    {
      current := initial;
      transitions := map[];
      callback := None;
      log := [];
    }

    /** Registers `from --event--> to`, replacing any earlier target for `(from, event)`. */
    method AddTransition(from: S, event: string, to: S)
      modifies this
      ensures transitions == old(transitions)[(from, event) := to]
      ensures current == old(current) && callback == old(callback) && log == old(log)
    {
      transitions := transitions[(from, event) := to];
    }

    /** Moves along the transition for `event` if the current state has one. */
    method Trigger(event: string) returns (moved: bool)
      modifies this
      ensures transitions == old(transitions) && callback == old(callback)
      ensures moved <==> (old(current), event) in transitions
      ensures current == Step(transitions, old(current), event)
      ensures log == old(log) + if moved && callback.Some? then [(callback.value, old(current), current)] else []
    {
      var key := (current, event);
      if key in transitions {
        var oldState := current;
        current := transitions[key];
        if callback.Some? {
          log := log + [(callback.value, oldState, current)];
        }
        return true;
      }
      return false;
    }

    function GetState(): S
      reads this
    {
      current
    }

    method OnTransition(c: C)
      modifies this
      ensures callback == Some(c)
      ensures current == old(current) && transitions == old(transitions) && log == old(log)
    {
      callback := Some(c);
    }
  }

  datatype OrderState = Pending | Processing | Shipped | Delivered | Cancelled

  /** The order transitions the example registers. */
  function OrderTransitions(): map<(OrderState, string), OrderState> {
    map[(Pending, "process") := Processing, (Processing, "ship") := Shipped,
        (Shipped, "deliver") := Delivered, (Pending, "cancel") := Cancelled,
        (Processing, "cancel") := Cancelled]
  }

  /** Processing, shipping and delivering takes a pending order to delivered. */
  lemma OrderLifecycle()
    ensures Run(OrderTransitions(), Pending, ["process", "ship", "deliver"]) == Delivered
  {
    var events := ["process", "ship", "deliver"];
    assert events[1..] == ["ship", "deliver"] && events[1..][1..] == ["deliver"];
  }

  /** An order can be cancelled only while pending or processing. */
  lemma CancelOnlyEarly(s: OrderState)
    ensures (s, "cancel") in OrderTransitions() <==> s == Pending || s == Processing
  {
    if (s, "cancel") in OrderTransitions() {
      assert "cancel" != "process" && "cancel" != "ship" && "cancel" != "deliver";
    }
  }

  /** The order example as the script runs it: five transitions, a callback, three events. */
  method OrderExample() returns (final: OrderState, log: seq<(string, OrderState, OrderState)>)
    ensures final == Delivered
    ensures log == [("on_state_change", Pending, Processing), ("on_state_change", Processing, Shipped),
                    ("on_state_change", Shipped, Delivered)]
  {
    var sm := new StateMachine<OrderState, string>(Pending);
    sm.AddTransition(Pending, "process", Processing);
    sm.AddTransition(Processing, "ship", Shipped);
    sm.AddTransition(Shipped, "deliver", Delivered);
    sm.AddTransition(Pending, "cancel", Cancelled);
    sm.AddTransition(Processing, "cancel", Cancelled);
    sm.OnTransition("on_state_change");
    var _ := sm.Trigger("process");
    var _ := sm.Trigger("ship");
    var _ := sm.Trigger("deliver");
    final := sm.GetState();
    log := sm.log;
  }

  // ----- Validators -----

  datatype Validator<!T> = Validator(name: string, check: T -> bool, errorMessage: string) {
    /** No message when the check passes, the validator's message when it fails. */
    function Validate(v: T): (r: Option<string>)
      ensures r.None? <==> check(v)
      ensures r.Some? ==> r.value == errorMessage
    {
      if check(v) then None else Some(errorMessage)
    }
  }

  datatype ValidationResult<T> = ValidationResult(value: T, errors: seq<string>) {
    predicate IsValid() {
      |errors| == 0
    }
  }

  /** `ValidationResult(value, errors)`: a missing error list (`errors or []`) becomes empty. */
  function MakeValidationResult<T>(value: T, errors: Option<seq<string>>): (r: ValidationResult<T>)
    ensures r.value == value
    ensures r.IsValid() <==> errors.None? || errors.value == []
    ensures errors.Some? ==> r.errors == errors.value
  {
    ValidationResult(value, errors.GetOr([]))
  }

  /** The messages a chain reports: those of the failing validators, in chain order. An empty
      message is falsy in Python, so it is not reported. */
  function Errors<T>(vs: seq<Validator<T>>, v: T): seq<string>
    decreases |vs|
  {
    if vs == [] then [] else Errors(vs[..|vs| - 1], v) + Reported(vs[|vs| - 1], v)
  }

  /** What one validator adds to the list: its message if it fails and the message is not empty. */
  function Reported<T>(validator: Validator<T>, v: T): seq<string> {
    var e := validator.Validate(v);
    if e.Some? && e.value != "" then [e.value] else []
  }

  /** A value passes a chain exactly when every validator passes it or has an empty message. */
  lemma {:induction false} ErrorsEmpty<T>(vs: seq<Validator<T>>, v: T)
    ensures Errors(vs, v) == [] <==> forall i :: 0 <= i < |vs| ==> vs[i].check(v) || vs[i].errorMessage == ""
    decreases |vs|
  {
    if vs != [] {
      var init := vs[..|vs| - 1];
      ErrorsEmpty(init, v);
      assert forall i :: 0 <= i < |init| ==> init[i] == vs[i];
    }
  }

  /** Every reported message is the non-empty message of a failing validator, and no more are
      reported than there are validators. */
  lemma {:induction false} ErrorsFromFailures<T>(vs: seq<Validator<T>>, v: T)
    ensures |Errors(vs, v)| <= |vs|
    ensures forall e :: e in Errors(vs, v) ==>
      e != "" && exists i :: 0 <= i < |vs| && !vs[i].check(v) && vs[i].errorMessage == e
    decreases |vs|
  {
    if vs != [] {
      var init := vs[..|vs| - 1];
      ErrorsFromFailures(init, v);
      forall e | e in Errors(vs, v)
        ensures e != "" && exists i :: 0 <= i < |vs| && !vs[i].check(v) && vs[i].errorMessage == e
      {
        if e in Errors(init, v) {
          var i :| 0 <= i < |init| && !init[i].check(v) && init[i].errorMessage == e;
          assert vs[i] == init[i];
        } else {
          assert !vs[|vs| - 1].check(v) && vs[|vs| - 1].errorMessage == e;
        }
      }
    }
  }

  class ValidatorChain<T> {
    var validators: seq<Validator<T>>

    constructor ()
      ensures validators == []
    {
      validators := [];
    }

    /** Appends a validator and returns the chain itself, for chaining. */
    method Add(validator: Validator<T>) returns (self: ValidatorChain<T>)
      modifies this
      ensures self == this && validators == old(validators) + [validator]
    {
      validators := validators + [validator];
      self := this;
    }

    /** Runs every validator on `value` and collects the messages of those that fail. */
    method Validate(value: T) returns (r: ValidationResult<T>)
      ensures r.value == value && r.errors == Errors(validators, value)
    {
      var errors := [];
      for i := 0 to |validators|
        invariant errors == Errors(validators[..i], value)
      {
        assert validators[..i + 1][..i] == validators[..i];
        var error := validators[i].Validate(value);
        if error.Some? && error.value != "" {
          errors := errors + [error.value];
        }
      }
      assert validators[..|validators|] == validators;
      r := ValidationResult(value, errors);
    }
  }

  /** `"." in s.split("@")[-1]`: the text after the last "@" contains a dot. */
  predicate HasDomain(s: string) {
    var parts := Strings.Split(s, '@');
    '.' in parts[|parts| - 1]
  }

  predicate NonEmpty(s: string) {
    |s| > 0
  }

  predicate HasAt(s: string) {
    '@' in s
  }

  predicate LongEnough(s: string) {
    |s| >= 5
  }

  /** The email chain of the example, in the order it is built. */
  function EmailValidators(): seq<Validator<string>> {
    [Validator("not_empty", NonEmpty, "Email cannot be empty"),
     Validator("has_at", HasAt, "Email must contain @"),
     Validator("has_domain", HasDomain, "Email must have domain"),
     Validator("min_length", LongEnough, "Email too short")]
  }

  /** A chain of four validators reports their messages in order. */
  lemma ErrorsFour<T>(vs: seq<Validator<T>>, v: T)
    requires |vs| == 4
    ensures Errors(vs, v) == Reported(vs[0], v) + Reported(vs[1], v) + Reported(vs[2], v) + Reported(vs[3], v)
  {
    var v3, v2, v1 := vs[..3], vs[..2], vs[..1];
    assert v3[..2] == v2 && v2[..1] == v1 && v1[..0] == [];
    assert Errors(v1, v) == Errors([], v) + Reported(vs[0], v);
    assert Errors(v2, v) == Errors(v1, v) + Reported(vs[1], v);
    assert Errors(v3, v) == Errors(v2, v) + Reported(vs[2], v);
    assert Errors(vs, v) == Errors(v3, v) + Reported(vs[3], v);
  }

  /** The email chain reports, in order, the message of each check the address fails. */
  lemma EmailErrors(s: string)
    ensures Errors(EmailValidators(), s) ==
      (if NonEmpty(s) then [] else ["Email cannot be empty"]) +
      (if HasAt(s) then [] else ["Email must contain @"]) +
      (if HasDomain(s) then [] else ["Email must have domain"]) +
      (if LongEnough(s) then [] else ["Email too short"])
  {
    var vs := EmailValidators();
    ErrorsFour(vs, s);
    assert Reported(vs[0], s) == if NonEmpty(s) then [] else ["Email cannot be empty"];
    assert Reported(vs[1], s) == if HasAt(s) then [] else ["Email must contain @"];
    assert Reported(vs[2], s) == if HasDomain(s) then [] else ["Email must have domain"];
    assert Reported(vs[3], s) == if LongEnough(s) then [] else ["Email too short"];
  }

  /** With exactly one "@", the domain check looks at the text after it. */
  lemma HasDomainOf(a: string, b: string)
    requires '@' !in a && '@' !in b
    ensures HasDomain(a + "@" + b) <==> '.' in b
  {
    SplitOnce(a, b);
  }

  /** An address with one "@", a dot after it and at least five characters passes the chain. */
  lemma EmailPasses(a: string, b: string)
    requires '@' !in a && '@' !in b && '.' in b && |a| + |b| >= 4
    ensures Errors(EmailValidators(), a + "@" + b) == []
  {
    assert HasAt(a + "@" + b) by {
      assert (a + "@" + b)[|a|] == '@';
    }
    assert HasDomain(a + "@" + b) by {
      HasDomainOf(a, b);
    }
    EmailErrors(a + "@" + b);
  }

  /** An address of five or more characters without "@" or "." fails the "@" and domain checks. */
  lemma EmailWithoutAt(s: string)
    requires '@' !in s && '.' !in s && |s| >= 5
    ensures Errors(EmailValidators(), s) == ["Email must contain @", "Email must have domain"]
  {
    assert [] + ["Email must contain @"] + ["Email must have domain"] + []
        == ["Email must contain @", "Email must have domain"];
    assert !HasDomain(s) by {
      Strings.SplitNoSep(s, '@');
    }
    EmailErrors(s);
  }

  /** A short address with one "@" and no dot after it fails the domain and length checks. */
  lemma EmailShortNoDomain(a: string, b: string)
    requires '@' !in a && '@' !in b && '.' !in b && |a| + |b| < 4
    ensures Errors(EmailValidators(), a + "@" + b) == ["Email must have domain", "Email too short"]
  {
    assert [] + [] + ["Email must have domain"] + ["Email too short"]
        == ["Email must have domain", "Email too short"];
    assert HasAt(a + "@" + b) by {
      assert (a + "@" + b)[|a|] == '@';
    }
    assert !HasDomain(a + "@" + b) by {
      HasDomainOf(a, b);
    }
    EmailErrors(a + "@" + b);
  }

  /** "alice@example.com" passes the whole email chain. */
  lemma EmailValid()
    ensures Errors(EmailValidators(), "alice@example.com") == []
  {
    assert "alice@example.com" == "alice" + "@" + "example.com";
    assert "example.com"[7] == '.';
    EmailPasses("alice", "example.com");
  }

  /** "invalid" has no "@" and no domain. */
  lemma EmailInvalid()
    ensures Errors(EmailValidators(), "invalid") == ["Email must contain @", "Email must have domain"]
  {
    EmailWithoutAt("invalid");
  }

  /** A bare "@" and "a@b" have an "@" but no dot after it, and are too short. */
  lemma EmailShort()
    ensures Errors(EmailValidators(), "@") == ["Email must have domain", "Email too short"]
    ensures Errors(EmailValidators(), "a@b") == ["Email must have domain", "Email too short"]
  {
    assert "@" == "" + "@" + "";
    EmailShortNoDomain("", "");
    assert "a@b" == "a" + "@" + "b";
    EmailShortNoDomain("a", "b");
  }

  /** Splitting `a + "@" + b` on "@" when neither part holds "@". */
  lemma SplitOnce(a: string, b: string)
    requires '@' !in a && '@' !in b
    ensures Strings.Split(a + "@" + b, '@') == [a, b]
  {
    Strings.SplitAtSep(a, b, '@');
    Strings.SplitNoSep(b, '@');
  }
}
