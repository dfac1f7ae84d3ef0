/** Callable-object techniques: partial application, lazy evaluation, composition, pipelines,
    retrying, chainable list operations and validator factories. */
module AdvancedCallables {
  import opened Wrappers
  import opened OrderedDict
  import Seqs
  import Strings

  // ----- Partial application -----

  /** `Partial(func, *args, **kwargs)`: a function of positional and keyword arguments with some
      of each stored in advance. Keyword arguments are a dict in the order they were given. */
  datatype Partial<!A, !K(==), !V, R> = Partial(func: (seq<A>, Dict<K, V>) -> R, args: seq<A>, kwargs: Dict<K, V>)
  {
    /** The arguments `__call__` passes on: stored positionals first, and for keywords
        `{**stored, **given}`, so a keyword given at call time wins. */
    function Arguments(args: seq<A>, kwargs: Dict<K, V>): (r: (seq<A>, Dict<K, V>))
      ensures |r.0| == |this.args| + |args|
      ensures r.0[..|this.args|] == this.args && r.0[|this.args|..] == args
      ensures Wf(kwargs) ==> forall k :: k in Keys(kwargs) ==> Get(r.1, k) == Get(kwargs, k)
      ensures Wf(kwargs) ==> forall k :: k in Keys(this.kwargs) && k !in Keys(kwargs) ==> Get(r.1, k) == Get(this.kwargs, k)
      ensures Wf(kwargs) ==> forall k :: k in Keys(r.1) ==> k in Keys(kwargs) || k in Keys(this.kwargs)
      ensures Wf(this.kwargs) ==> Wf(r.1)
    {
      GetMergeAll(this.kwargs, kwargs);
      MergeWf(this.kwargs, kwargs);
      var merged := Merge(this.kwargs, kwargs);
      assert Wf(kwargs) ==> forall k :: k in Keys(merged) ==> k in Keys(kwargs) || k in Keys(this.kwargs) by {
        if Wf(kwargs) {
          forall k | k in Keys(merged) ensures k in Keys(kwargs) || k in Keys(this.kwargs) {
            assert Get(merged, k).Some?;
          }
        }
      }
      (this.args + args, merged)
    }

    /** `partial(*args, **kwargs)`: with nothing new given the stored arguments alone are
        passed, and with nothing stored the call passes on what it is given. */
    function Call(args: seq<A>, kwargs: Dict<K, V>): (r: R)
      ensures kwargs == [] ==> r == func(this.args + args, this.kwargs)
      ensures this.args == [] && this.kwargs == [] && Wf(kwargs) ==> r == func(args, kwargs)
    {
      MergeIntoEmpty(kwargs);
      assert [] + args == args;
      var (a, k) := Arguments(args, kwargs);
      func(a, k)
    }
  }

  /** Whether a keyword names a parameter of `multiply(a, b, c)`, and which. */
  const MultiplyParams: seq<string> := ["a", "b", "c"]

  function ParamIndex(k: string): (r: Option<nat>)
    ensures r.Some? <==> k in MultiplyParams
    ensures r.Some? ==> r.value < 3 && MultiplyParams[r.value] == k
  {
    if k == "a" then Some(0) else if k == "b" then Some(1) else if k == "c" then Some(2) else None
  }

  /** The three parameter slots after binding the positional arguments. */
  function PositionalSlots(args: seq<int>): (s: seq<Option<int>>)
    ensures |s| == 3
    ensures forall j :: 0 <= j < 3 ==> s[j] == if j < |args| then Some(args[j]) else None
  {
    seq(3, j requires 0 <= j < 3 => if j < |args| then Some(args[j]) else None)
  }

  /** Binding the keyword arguments in order: an unknown name and a name whose slot is already
      filled raise TypeError. */
  function BindKeywords(slots: seq<Option<int>>, kwargs: Dict<string, int>): (r: Result<seq<Option<int>>, PyError>)
    requires |slots| == 3
    ensures r.Ok? ==> |r.value| == 3
    ensures r.Err? ==> r.error.TypeError?
    decreases |kwargs|
  {
    if kwargs == [] then Ok(slots)
    else
      var (k, v) := kwargs[0];
      match ParamIndex(k)
      case None => Err(TypeError("multiply() got an unexpected keyword argument '" + k + "'"))
      case Some(j) =>
        if slots[j].Some? then Err(TypeError("multiply() got multiple values for argument '" + k + "'"))
        else BindKeywords(slots[j := Some(v)], kwargs[1..])
  }

  /** Every keyword names a parameter whose slot is still empty, and no name is given twice. */
  ghost predicate KeywordsFit(slots: seq<Option<int>>, kwargs: Dict<string, int>)
    requires |slots| == 3
  {
    && Wf(kwargs)
    && forall i :: 0 <= i < |kwargs| ==> kwargs[i].0 in MultiplyParams && slots[ParamIndex(kwargs[i].0).value].None?
  }

  /** Keyword binding succeeds exactly when the keywords fit, and then fills each empty slot
      with the value its parameter's name has among the keywords. */
  lemma {:induction false} BindKeywordsSpec(slots: seq<Option<int>>, kwargs: Dict<string, int>)
    requires |slots| == 3
    ensures BindKeywords(slots, kwargs).Ok? <==> KeywordsFit(slots, kwargs)
    ensures BindKeywords(slots, kwargs).Ok? ==> forall j :: 0 <= j < 3 ==>
      BindKeywords(slots, kwargs).value[j] == if slots[j].Some? then slots[j] else Get(kwargs, MultiplyParams[j])
    decreases |kwargs|
  {
    if kwargs != [] {
      var (k, v) := kwargs[0];
      var t := kwargs[1..];
      if ParamIndex(k).Some? && slots[ParamIndex(k).value].None? {
        var j := ParamIndex(k).value;
        var slots' := slots[j := Some(v)];
        BindKeywordsSpec(slots', t);
        TailWf(kwargs);
        KeywordsFitCons(slots, kwargs);
        if BindKeywords(slots, kwargs).Ok? {
          var r := BindKeywords(slots, kwargs).value;
          forall m | 0 <= m < 3
            ensures r[m] == if slots[m].Some? then slots[m] else Get(kwargs, MultiplyParams[m])
          {
            if m != j && slots[m].None? {
              assert MultiplyParams[m] != k;
            }
          }
        }
      } else {
        assert !KeywordsFit(slots, kwargs) by {
          assert kwargs[0] == (k, v);
        }
      }
    }
  }

  /** Keywords fit after their first is bound exactly when they fit before. */
  lemma KeywordsFitCons(slots: seq<Option<int>>, kwargs: Dict<string, int>)
    requires |slots| == 3 && kwargs != []
    requires kwargs[0].0 in MultiplyParams && slots[ParamIndex(kwargs[0].0).value].None?
    ensures KeywordsFit(slots, kwargs) <==>
      KeywordsFit(slots[ParamIndex(kwargs[0].0).value := Some(kwargs[0].1)], kwargs[1..])
  {
    var k, j, t := kwargs[0].0, ParamIndex(kwargs[0].0).value, kwargs[1..];
    var slots' := slots[j := Some(kwargs[0].1)];
    TailWf(kwargs);
    if KeywordsFit(slots, kwargs) {
      forall i | 0 <= i < |t| ensures t[i].0 in MultiplyParams && slots'[ParamIndex(t[i].0).value].None? {
        assert t[i] == kwargs[i + 1];
        assert t[i].0 != k;
      }
    }
    if KeywordsFit(slots', t) {
      forall i | 0 <= i < |kwargs| ensures kwargs[i].0 in MultiplyParams && slots[ParamIndex(kwargs[i].0).value].None? {
        if i > 0 { assert kwargs[i] == t[i - 1]; }
      }
      forall i, i' | 0 <= i < i' < |kwargs| ensures kwargs[i].0 != kwargs[i'].0 {
        assert kwargs[i'] == t[i' - 1];
        if i > 0 { assert kwargs[i] == t[i - 1]; }
      }
    }
  }

  /** The names of the still empty slots as CPython lists them: "'c'", "'b' and 'c'",
      "'a', 'b', and 'c'". */
  function MissingNames(slots: seq<Option<int>>): (r: (nat, string))
    requires |slots| == 3
  {
    var quoted := (if slots[0].None? then ["'a'"] else []) + (if slots[1].None? then ["'b'"] else [])
                + (if slots[2].None? then ["'c'"] else []);
    if |quoted| == 1 then (1, quoted[0])
    else if |quoted| == 2 then (2, quoted[0] + " and " + quoted[1])
    else if |quoted| == 3 then (3, quoted[0] + ", " + quoted[1] + ", and " + quoted[2])
    else (0, "")
  }

  /** `multiply(a, b, c)` called as CPython binds arguments: positionals fill the first slots,
      then each keyword fills the slot it names; too many positionals, an unknown or repeated
      name, or a slot left empty raise TypeError. */
  function Multiply(args: seq<int>, kwargs: Dict<string, int>): (r: Result<int, PyError>)
    ensures r.Ok? <==> |args| <= 3 && KeywordsFit(PositionalSlots(args), kwargs)
                       && forall j :: |args| <= j < 3 ==> MultiplyParams[j] in Keys(kwargs)
    ensures r.Ok? ==> r.value == Bound(args, kwargs, 0) * Bound(args, kwargs, 1) * Bound(args, kwargs, 2)
    ensures r.Err? ==> r.error.TypeError?
  {
    BindKeywordsSpec(PositionalSlots(args), kwargs);
    match BindKeywords(PositionalSlots(args), kwargs)
    case Err(e) => Err(e)
    case Ok(s) =>
      if |args| > 3 then
        Err(TypeError("multiply() takes 3 positional arguments but " + Strings.NatToString(|args|) + " were given"))
      else if s[0].Some? && s[1].Some? && s[2].Some? then Ok(s[0].value * s[1].value * s[2].value)
      else
        var (n, names) := MissingNames(s);
        Err(TypeError("multiply() missing " + Strings.NatToString(n) + " required positional argument"
                      + (if n == 1 then "" else "s") + ": " + names))
  }

  /** The value parameter `j` of `multiply` receives: its positional argument, or else its
      keyword argument (0 when it has neither, a case in which `multiply` raises). */
  function Bound(args: seq<int>, kwargs: Dict<string, int>, j: nat): int
    requires j < 3
  {
    if j < |args| then args[j] else Get(kwargs, MultiplyParams[j]).GetOr(0)
  }

  /** `Partial(multiply, 2)(3, 4)` is 24 and `Partial(multiply, 3, 5)(2)` is 30. */
  lemma PartialExamples()
    ensures Partial(Multiply, [2], []).Call([3, 4], []) == Ok(24)
    ensures Partial(Multiply, [3, 5], []).Call([2], []) == Ok(30)
  {
    var p := Partial(Multiply, [2], []);
    assert p.Arguments([3, 4], []).1 == [];
    assert p.Arguments([3, 4], []).0 == [2, 3, 4];
    MultiplyPositional([2, 3, 4]);
    var q := Partial(Multiply, [3, 5], []);
    assert q.Arguments([2], []).1 == [];
    assert q.Arguments([2], []).0 == [3, 5, 2];
    MultiplyPositional([3, 5, 2]);
  }

  /** Three positional arguments and no keywords: the product of the three. */
  lemma MultiplyPositional(args: seq<int>)
    requires |args| == 3
    ensures Multiply(args, []) == Ok(args[0] * args[1] * args[2])
  {
    assert KeywordsFit(PositionalSlots(args), []);
  }

  /** Keywords are bound as well: `Partial(multiply, 2)(3, c=4)` is 24. */
  lemma PartialKeywordExample()
    ensures Partial(Multiply, [2], []).Call([3], [("c", 4)]) == Ok(24)
  {
    var p := Partial(Multiply, [2], []);
    assert Set([], "c", 4) == [("c", 4)];
    assert p.Arguments([3], [("c", 4)]).1 == [("c", 4)];
    assert p.Arguments([3], [("c", 4)]).0 == [2, 3];
    MultiplyKeywordC();
  }

  /** `multiply(2, 3, c=4)` is 24. */
  lemma MultiplyKeywordC()
    ensures Multiply([2, 3], [("c", 4)]) == Ok(24)
  {
    assert PositionalSlots([2, 3]) == [Some(2), Some(3), None];
    assert ParamIndex("c") == Some(2);
    assert [("c", 4)][1..] == [];
    assert [Some(2), Some(3), None][2 := Some(4)] == [Some(2), Some(3), Some(4)];
    assert BindKeywords([Some(2), Some(3), None], [("c", 4)]) == BindKeywords([Some(2), Some(3), Some(4)], []);
  }

  /** CPython's message for a call with too few arguments. */
  lemma MultiplyMissingArguments()
    ensures Multiply([2], []) == Err(TypeError("multiply() missing 2 required positional arguments: 'b' and 'c'"))
  {
    var s := [Some(2), None, None];
    assert PositionalSlots([2]) == s;
    assert BindKeywords(s, []) == Ok(s);
    assert MissingNames(s) == (2, "'b'" + " and " + "'c'");
    assert Strings.NatToString(2) == "2";
    MissingTwoText();
  }

  /** The pieces of the too-few message assembled. */
  lemma MissingTwoText()
    ensures "multiply() missing " + "2" + " required positional argument" + "s" + ": " + ("'b'" + " and " + "'c'")
         == "multiply() missing 2 required positional arguments: 'b' and 'c'"
  {
    assert "'b'" + " and " + "'c'" == "'b' and 'c'";
    assert "multiply() missing " + "2" == "multiply() missing 2";
    assert "multiply() missing 2" + " required positional argument" == "multiply() missing 2 required positional argument";
    assert "multiply() missing 2 required positional argument" + "s" == "multiply() missing 2 required positional arguments";
    assert "multiply() missing 2 required positional arguments" + ": " == "multiply() missing 2 required positional arguments: ";
  }

  /** CPython's message for a call with too many positional arguments. */
  lemma MultiplyTooManyArguments()
    ensures Multiply([2, 3, 4, 5], []) == Err(TypeError("multiply() takes 3 positional arguments but 4 were given"))
  {
    assert BindKeywords(PositionalSlots([2, 3, 4, 5]), []).Ok?;
    assert Strings.NatToString(4) == "4";
    assert "multiply() takes 3 positional arguments but " + "4" + " were given"
        == "multiply() takes 3 positional arguments but 4 were given";
  }

  /** A keyword given at the call replaces the stored one of the same name. */
  lemma PartialKeywordOverride()
    ensures Partial(Multiply, [2], [("c", 5)]).Call([3], [("c", 4)]) == Ok(24)
  {
    var q := Partial(Multiply, [2], [("c", 5)]);
    assert Set([("c", 5)], "c", 4) == [("c", 4)];
    assert q.Arguments([3], [("c", 4)]).1 == [("c", 4)];
    assert q.Arguments([3], [("c", 4)]).0 == [2, 3];
    MultiplyKeywordC();
  }

  /** Naming a parameter already filled positionally raises TypeError. */
  lemma PartialKeywordRepeat()
    ensures Partial(Multiply, [2], []).Call([3], [("a", 4)])
         == Err(TypeError("multiply() got multiple values for argument 'a'"))
  {
    var p := Partial(Multiply, [2], []);
    assert Set([], "a", 4) == [("a", 4)];
    assert p.Arguments([3], [("a", 4)]).1 == [("a", 4)];
    assert p.Arguments([3], [("a", 4)]).0 == [2, 3];
    assert PositionalSlots([2, 3]) == [Some(2), Some(3), None];
    assert ParamIndex("a") == Some(0);
    assert "multiply() got multiple values for argument '" + "a" + "'"
        == "multiply() got multiple values for argument 'a'";
    assert BindKeywords([Some(2), Some(3), None], [("a", 4)])
        == Err(TypeError("multiply() got multiple values for argument 'a'"));
  }

  // ----- Lazy evaluation -----

  /** `Lazy(func)`: computes `func()` on the first call only and returns that result from then on. */
  class Lazy<T> {
    const func: () -> T
    var result: Option<T>
    var computed: bool
    /** How often `func` has been evaluated. */
    var evaluations: nat

    ghost predicate Valid()
      reads this
    {
      && (computed <==> result.Some?)
      && evaluations == (if computed then 1 else 0)
      && (computed ==> result == Some(func()))
    }

    constructor (func: () -> T)
      ensures Valid() && this.func == func && !computed && evaluations == 0
    {
      this.func := func;
      result := None;
      computed := false;
      evaluations := 0;
    }

    /** `lazy()`: the first call evaluates `func`; every later one returns the stored result. */
    method Call() returns (r: T)
      requires Valid()
      modifies this
      ensures Valid() && computed
      ensures r == func() && result == Some(r)
      ensures evaluations == 1
      ensures old(computed) ==> result == old(result) && evaluations == old(evaluations)
    {
      if !computed {
        result := Some(func());
        computed := true;
        evaluations := evaluations + 1;
      }
      r := result.value;
    }
  }

  /** Two calls of a fresh `Lazy` evaluate the function once and return the same value. */
  method LazyExample(f: () -> int) returns (v1: int, v2: int, evaluations: nat)
    ensures v1 == v2 == f() && evaluations == 1
  {
    var lazy := new Lazy(f);
    v1 := lazy.Call();
    v2 := lazy.Call();
    evaluations := lazy.evaluations;
  }

  // ----- Composition and pipelines -----

  /** `f(g(h(x)))` for `fs == [f, g, h]`: the last function is applied first. */
  function Composed<T>(fs: seq<T -> T>, x: T): T
    decreases |fs|
  {
    if fs == [] then x else fs[0](Composed(fs[1..], x))
  }

  /** Composing the functions is running them as a pipeline in reverse order. */
  lemma {:induction false} ComposedIsReversedPipeline<T>(fs: seq<T -> T>, x: T)
    ensures Composed(fs, x) == Seqs.ApplyAll(Seqs.Reverse(fs), x)
    decreases |fs|
  {
    if fs != [] {
      ComposedIsReversedPipeline(fs[1..], x);
      Seqs.ApplyAllSnoc(Seqs.Reverse(fs[1..]), fs[0], x);
    }
  }

  /** `Compose(*functions)`. */
  class Compose<T> {
    const functions: seq<T -> T>

    constructor (functions: seq<T -> T>)
      ensures this.functions == functions
    {
      this.functions := functions;
    }

    /** `composed(x)`: runs through `reversed(functions)`. */
    method Call(x: T) returns (r: T)
      ensures r == Composed(functions, x)
    {
      r := x;
      var k := |functions|;
      while k > 0
        invariant 0 <= k <= |functions|
        invariant r == Composed(functions[k..], x)
      {
        k := k - 1;
        assert functions[k..][1..] == functions[k + 1..];
        r := functions[k](r);
      }
    }
  }

  function AddFive(x: int): int { x + 5 }
  function MultiplyByTwo(x: int): int { x * 2 }
  function Square(x: int): int { x * x }

  /** `Compose(square, multiply_by_two, add_five)(3)` is `square(multiply_by_two(add_five(3)))`, 256. */
  method ComposeExample() returns (r: int)
    ensures r == 256
  {
    var fs: seq<int -> int> := [Square, MultiplyByTwo, AddFive];
    var composed := new Compose(fs);
    r := composed.Call(3);
    var g := fs[1..];
    var h := g[1..];
    assert h[1..] == [];
    assert Composed(h, 3) == AddFive(3);
    assert Composed(g, 3) == MultiplyByTwo(Composed(h, 3));
    assert Composed(fs, 3) == Square(Composed(g, 3));
  }

  /** `Pipeline(*steps)`. */
  class Pipeline<T> {
    var steps: seq<T -> T>

    constructor (steps: seq<T -> T>)
      ensures this.steps == steps
    {
      this.steps := steps;
    }

    /** `pipeline(data)`: the steps in order, the first one first. */
    method Call(data: T) returns (r: T)
      ensures r == Seqs.ApplyAll(steps, data)
    {
      r := data;
      for i := 0 to |steps|
        invariant r == Seqs.ApplyAll(steps[..i], data)
      {
        Seqs.ApplyAllSnoc(steps[..i], steps[i], data);
        assert steps[..i + 1] == steps[..i] + [steps[i]];
        r := steps[i](r);
      }
      assert steps[..|steps|] == steps;
    }

    /** `add_step(step)`: one more step at the end, returning the pipeline itself. */
    method AddStep(step: T -> T) returns (self: Pipeline<T>)
      modifies this
      ensures steps == old(steps) + [step] && self == this
    {
      steps := steps + [step];
      self := this;
    }
  }

  /** A step added to a pipeline runs after all the others. */
  lemma AddedStepRunsLast<T>(steps: seq<T -> T>, step: T -> T, data: T)
    ensures Seqs.ApplyAll(steps + [step], data) == step(Seqs.ApplyAll(steps, data))
  {
    Seqs.ApplyAllSnoc(steps, step, data);
  }

  /** `f"[{text}]"`. */
  function AddBrackets(text: string): string {
    "[" + text + "]"
  }

  /** The text pipeline of the example, on "hello world": spaces removed, then upper-cased, then
      bracketed. */
  method PipelineExample(text: string) returns (r: string)
    requires text == "hello world"
    ensures r == "[HELLOWORLD]"
  {
    var fs: seq<string -> string> := [Strings.RemoveSpaces, Strings.Upper, AddBrackets];
    var pipeline := new Pipeline(fs);
    r := pipeline.Call(text);
    TextPipeline(text);
    HelloWorldText(text);
  }

  /** "hello" and "world" joined by a space lose just that space. */
  lemma HelloWorldSpaces(a: string, b: string)
    requires a == "hello" && b == "world"
    ensures Strings.RemoveSpaces(a + [' '] + b) == "helloworld"
  {
    assert ' ' !in a && ' ' !in b;
    RemoveOneSpace(a, b);
  }

  /** "helloworld" upper-cased, letter by letter. */
  lemma HelloWorldUpper()
    ensures Strings.Upper("helloworld") == "HELLOWORLD"
  {
    var u := Strings.Upper("helloworld");
    assert u[0] == 'H' && u[1] == 'E' && u[2] == 'L' && u[3] == 'L' && u[4] == 'O';
    assert u[5] == 'W' && u[6] == 'O' && u[7] == 'R' && u[8] == 'L' && u[9] == 'D';
  }

  /** The example's text, through the three steps, is "[HELLOWORLD]". */
  lemma HelloWorldText(text: string)
    requires text == "hello world"
    ensures "[" + Strings.Upper(Strings.RemoveSpaces(text)) + "]" == "[HELLOWORLD]"
  {
    assert text == "hello" + [' '] + "world";
    HelloWorldSpaces("hello", "world");
    HelloWorldBracketed(Strings.RemoveSpaces(text));
  }

  /** "helloworld" upper-cased and bracketed. */
  lemma HelloWorldBracketed(t: string)
    requires t == "helloworld"
    ensures "[" + Strings.Upper(t) + "]" == "[HELLOWORLD]"
  {
    HelloWorldUpper();
  }

  /** The example's pipeline removes the spaces first, upper-cases second and brackets last. */
  lemma TextPipeline(s: string)
    ensures Seqs.ApplyAll([Strings.RemoveSpaces, Strings.Upper, AddBrackets], s)
         == "[" + Strings.Upper(Strings.RemoveSpaces(s)) + "]"
  {
    ApplyThree(Strings.RemoveSpaces, Strings.Upper, AddBrackets, s);
  }

  /** A three-step pipeline applies its steps in order. */
  lemma ApplyThree<T>(f: T -> T, g: T -> T, h: T -> T, x: T)
    ensures Seqs.ApplyAll([f, g, h], x) == h(g(f(x)))
  {
    var fs := [f, g, h];
    assert fs[1..] == [g, h] && fs[1..][1..] == [h] && fs[1..][1..][1..] == [];
    assert Seqs.ApplyAll([h], g(f(x))) == Seqs.ApplyAll([], h(g(f(x))));
    assert Seqs.ApplyAll([g, h], f(x)) == Seqs.ApplyAll([h], g(f(x)));
  }

  /** Two space-free words joined by one space lose just that space. */
  lemma {:induction false} RemoveOneSpace(a: string, b: string)
    requires ' ' !in a && ' ' !in b
    ensures Strings.RemoveSpaces(a + [' '] + b) == a + b
  {
    var t := [' '] + b;
    assert a + [' '] + b == a + t;
    Strings.RemoveSpacesConcat(a, t);
    assert t[1..] == b;
    assert Strings.RemoveSpaces(t) == Strings.RemoveSpaces(b);
    Strings.RemoveSpacesNone(a);
    Strings.RemoveSpacesNone(b);
  }

  // ----- Retry -----

  /** `Retry(max_attempts, delay)`; the delay only sleeps between attempts. */
  class Retry {
    const maxAttempts: int
    const delay: real

    constructor (maxAttempts: int := 3, delay: real := 0.0)
      ensures this.maxAttempts == maxAttempts && this.delay == delay
    {
      this.maxAttempts := maxAttempts;
      this.delay := delay;
    }

    /** The decorated function called once: `target(a)` is what attempt number `a` (from 1) gives.
        Returns the first success, re-raises the error of the last attempt, and with
        `max_attempts <= 0` never calls the function and returns None. */
    method Call<T>(target: nat -> Result<T, PyError>) returns (r: Result<Option<T>, PyError>, attempts: nat)
      ensures maxAttempts <= 0 ==> r == Ok(None) && attempts == 0
      ensures maxAttempts >= 1 ==> 1 <= attempts <= maxAttempts
      ensures forall a :: 1 <= a < attempts ==> target(a).Err?
      ensures r.Ok? && r.value.Some? ==> target(attempts) == Ok(r.value.value)
      ensures maxAttempts >= 1 ==> (r.Err? <==> target(attempts).Err?)
      ensures r.Err? ==> attempts == maxAttempts && target(attempts) == Err(r.error)
      ensures maxAttempts >= 1 && r.Ok? ==> r.value.Some?
    {
      attempts := 0;
      if maxAttempts <= 0 {
        return Ok(None), 0;
      }
      var attempt := 1;
      while true
        invariant 1 <= attempt <= maxAttempts
        invariant forall a :: 1 <= a < attempt ==> target(a).Err?
        decreases maxAttempts - attempt
      {
        var outcome := target(attempt);
        if outcome.Ok? {
          return Ok(Some(outcome.value)), attempt;
        }
        if attempt == maxAttempts {
          return Err(outcome.error), attempt;
        }
        attempt := attempt + 1;
      }
    }
  }

  /** `unreliable_function`: its first two calls raise ConnectionError, the third returns "Success!". */
  function Unreliable(callCount: nat): (r: Result<string, PyError>)
    ensures r.Ok? <==> callCount >= 3
    ensures r.Ok? ==> r.value == "Success!"
    ensures r.Err? ==> r.error == ConnectionError("Connection failed")
  {
    if callCount < 3 then Err(ConnectionError("Connection failed")) else Ok("Success!")
  }

  /** With three attempts the unreliable function succeeds on the third. */
  method RetryExample() returns (r: Result<Option<string>, PyError>, attempts: nat)
    ensures r == Ok(Some("Success!")) && attempts == 3
  {
    var retry := new Retry(3, 0.1);
    r, attempts := retry.Call(Unreliable);
  }

  // ----- Chainable list -----

  /** `ChainableList(data)`: filter and map replace the list and return the same object. */
  class ChainableList<T> {
    var data: seq<T>

    constructor (data: seq<T>)
      ensures this.data == data
    {
      this.data := data;
    }

    method Filter(p: T -> bool) returns (self: ChainableList<T>)
      modifies this
      ensures data == Seqs.Filter(old(data), p) && self == this
    {
      data := Seqs.Filter(data, p);
      self := this;
    }

    method Map(f: T -> T) returns (self: ChainableList<T>)
      modifies this
      ensures data == Seqs.Map(old(data), f) && self == this
    {
      data := Seqs.Map(data, f);
      self := this;
    }

    /** `reduce(reducer, initial)`: a left fold from `initial`, or without one from the first element,
        where an empty list raises IndexError. */
    method Reduce(reducer: (T, T) -> T, initial: Option<T>) returns (r: Result<T, PyError>)
      ensures initial.Some? ==> r == Ok(Seqs.FoldLeft(reducer, initial.value, data))
      ensures initial.None? && data != [] ==> r == Ok(Seqs.FoldLeft(reducer, data[0], data[1..]))
      ensures initial.None? && data == [] ==> r.Err? && r.error.IndexError?
    {
      var acc, start;
      if initial.None? {
        if data == [] {
          return Err(IndexError("list index out of range"));
        }
        acc, start := data[0], 1;
      } else {
        acc, start := initial.value, 0;
      }
      var rest := data[start..];
      for i := 0 to |rest|
        invariant Seqs.FoldLeft(reducer, acc, rest[i..]) == Seqs.FoldLeft(reducer, if initial.None? then data[0] else initial.value, rest)
      {
        assert rest[i..][1..] == rest[i + 1..];
        acc := reducer(acc, rest[i]);
      }
      return Ok(acc);
    }

    function Get(): seq<T>
      reads this
    {
      data
    }
  }

  function IsEven(x: int): bool { x % 2 == 0 }
  function Plus(a: int, b: int): int { a + b }

  /** Doubling every element and then summing from `2 * acc` is twice the sum from `acc`. */
  lemma {:induction false} SumDoubled(acc: int, s: seq<int>)
    ensures Seqs.FoldLeft(Plus, 2 * acc, Seqs.Map(s, MultiplyByTwo)) == 2 * Seqs.FoldLeft(Plus, acc, s)
    decreases |s|
  {
    if s != [] {
      var m := Seqs.Map(s, MultiplyByTwo);
      assert m[1..] == Seqs.Map(s[1..], MultiplyByTwo);
      SumDoubled(acc + s[0], s[1..]);
    }
  }

  /** The chains of the example: the even numbers of 1..10 squared, and the sum of 1..5 doubled. */
  method ChainExample() returns (squares: seq<int>, sum: Result<int, PyError>)
    ensures squares == [4, 16, 36, 64, 100]
    ensures sum == Ok(30)
  {
    var numbers := new ChainableList([1, 2, 3, 4, 5, 6, 7, 8, 9, 10]);
    var c := numbers.Filter(IsEven);
    c := c.Map(Square);
    squares := c.Get();
    EvenSquares();
    var doubled := new ChainableList([1, 2, 3, 4, 5]);
    var d := doubled.Map(MultiplyByTwo);
    sum := d.Reduce(Plus, Some(0));
    DoubledSum();
  }

  lemma EvenSquares()
    ensures Seqs.Map(Seqs.Filter([1, 2, 3, 4, 5, 6, 7, 8, 9, 10], IsEven), Square) == [4, 16, 36, 64, 100]
  {
    EvensUpToTen();
    SquaresOfEvens();
  }

  lemma SquaresOfEvens()
    ensures Seqs.Map([2, 4, 6, 8, 10], Square) == [4, 16, 36, 64, 100]
  {
    var m := Seqs.Map([2, 4, 6, 8, 10], Square);
    assert m[0] == 4 && m[1] == 16 && m[2] == 36 && m[3] == 64 && m[4] == 100;
  }

  lemma EvensUpToTen()
    ensures Seqs.Filter([1, 2, 3, 4, 5, 6, 7, 8, 9, 10], IsEven) == [2, 4, 6, 8, 10]
  {
    TenHalves();
    Seqs.FilterConcat([1, 2, 3, 4, 5], [6, 7, 8, 9, 10], IsEven);
    EvensLow();
    EvensHigh();
    EvensJoined();
  }

  lemma TenHalves()
    ensures [1, 2, 3, 4, 5, 6, 7, 8, 9, 10] == [1, 2, 3, 4, 5] + [6, 7, 8, 9, 10]
  {
  }

  lemma EvensJoined()
    ensures [2, 4] + [6, 8, 10] == [2, 4, 6, 8, 10]
  {
  }

  lemma EvensLow()
    ensures Seqs.Filter([1, 2, 3, 4, 5], IsEven) == [2, 4]
  {
    var s := [1, 2, 3, 4, 5];
    assert s[1..] == [2, 3, 4, 5] && s[1..][1..] == [3, 4, 5] && s[1..][1..][1..] == [4, 5];
    assert s[1..][1..][1..][1..] == [5] && s[1..][1..][1..][1..][1..] == [];
  }

  lemma EvensHigh()
    ensures Seqs.Filter([6, 7, 8, 9, 10], IsEven) == [6, 8, 10]
  {
    var s := [6, 7, 8, 9, 10];
    assert s[1..] == [7, 8, 9, 10] && s[1..][1..] == [8, 9, 10] && s[1..][1..][1..] == [9, 10];
    assert s[1..][1..][1..][1..] == [10] && s[1..][1..][1..][1..][1..] == [];
  }

  lemma DoubledSum()
    ensures Seqs.FoldLeft(Plus, 0, Seqs.Map([1, 2, 3, 4, 5], MultiplyByTwo)) == 30
  {
    SumDoubled(0, [1, 2, 3, 4, 5]);
    var s := [1, 2, 3, 4, 5];
    assert s[1..] == [2, 3, 4, 5] && s[1..][1..] == [3, 4, 5] && s[1..][1..][1..] == [4, 5];
    assert s[1..][1..][1..][1..] == [5] && s[1..][1..][1..][1..][1..] == [];
    assert Seqs.FoldLeft(Plus, 0, s) == 15;
  }

  // ----- Validator factory -----

  /** `create_range_validator(min_val, max_val)`. */
  datatype RangeValidator = RangeValidator(minVal: int, maxVal: int)
  {
    predicate Accepts(value: int) {
      minVal <= value <= maxVal
    }
  }

  /** `create_length_validator(min_len, max_len)`. */
  datatype LengthValidator = LengthValidator(minLen: int, maxLen: int)
  {
    predicate Accepts(value: string) {
      minLen <= |value| <= maxLen
    }
  }

  /** A length validator is the range validator with the same bounds applied to the length. */
  lemma LengthIsRange(minLen: int, maxLen: int, s: string)
    ensures LengthValidator(minLen, maxLen).Accepts(s) <==> RangeValidator(minLen, maxLen).Accepts(|s|)
  {
  }

  /** The example's verdicts: ages 25 and 15 against 18..100, passwords against 8..20 characters. */
  lemma ValidatorExamples()
    ensures RangeValidator(18, 100).Accepts(25) && !RangeValidator(18, 100).Accepts(15)
    ensures !LengthValidator(8, 20).Accepts("short") && LengthValidator(8, 20).Accepts("longenough123")
  {
  }
}
