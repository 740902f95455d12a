/**
  Chains of `Optional` calls and the laws the synchronous container keeps:
  what an empty container does to a chain, how `map`, `flatMap`, `take`
  and `filter` relate, and how `either(..).or(..)` matches `eitherOr`.
 */
module OptionalLaws {
  import opened Js
  import opened Optionals

  /** One transforming call in a fluent chain. */
  datatype Step =
    | MapStep(mapper: Value -> Outcome<Value>)
    | FilterStep(test: Value -> Outcome<Value>)
    | TakeStep(key: string)
    | FlatMapStep(flatMapper: Value -> Outcome<Returned>)
    | OrUseStep(newValue: Value)
    | OrComputeStep(supplier: () -> Outcome<Value>)
    | OrFlatComputeStep(flatSupplier: () -> Outcome<Returned>)

  /** Steps that leave an empty container alone (`map`, `filter`, `take`,
      `flatMap`), as opposed to the fallbacks `orUse`, `orCompute`,
      `orFlatCompute`. */
  predicate Transforms(s: Step) {
    s.MapStep? || s.FilterStep? || s.TakeStep? || s.FlatMapStep?
  }

  /** Performs one step; each step invokes at most one callback. */
  function Apply(o: Optional, s: Step): (r: Run<Outcome<Optional>>)
    ensures |r.calls| <= 1
    ensures Transforms(s) && IsEmpty(o) ==> r == Run(Returns(o), [])
    ensures !Transforms(s) && IsPresent(o) ==> r == Run(Returns(o), [])
  {
    match s
    case MapStep(f) => Map(o, f)
    case FilterStep(t) => Filter(o, t)
    case TakeStep(k) => Run(Returns(Take(o, k)), [])
    case FlatMapStep(f) => FlatMap(o, f)
    case OrUseStep(x) => Run(Returns(OrUse(o, x)), [])
    case OrComputeStep(f) => OrCompute(o, f)
    case OrFlatComputeStep(f) => OrFlatCompute(o, f)
  }

  /** A chain runs its steps left to right; the first exception ends it.
      The callbacks invoked are those of the steps that ran, in order, at
      most one per step. */
  function Chain(o: Optional, steps: seq<Step>): (r: Run<Outcome<Optional>>)
    ensures |r.calls| <= |steps|
    ensures steps == [] ==> r == Run(Returns(o), [])
    ensures steps != [] && Apply(o, steps[0]).result.Throws? ==> r == Apply(o, steps[0])
    ensures steps != [] && Apply(o, steps[0]).result.Returns? ==>
              |Apply(o, steps[0]).calls| <= |r.calls| &&
              r.calls[..|Apply(o, steps[0]).calls|] == Apply(o, steps[0]).calls
    decreases |steps|
  {
    if steps == [] then Run(Returns(o), [])
    else
      var first := Apply(o, steps[0]);
      match first.result
      case Throws(e) => Run(Throws(e), first.calls)
      case Returns(next) =>
        var rest := Chain(next, steps[1..]);
        Run(rest.result, first.calls + rest.calls)
  }

  /** A chain of one step is that step. */
  lemma ChainOfOne(o: Optional, s: Step)
    ensures Chain(o, [s]) == Apply(o, s)
  {
    assert [s][1..] == [];
    var first := Apply(o, s);
    if first.result.Returns? {
      assert Chain(first.result.value, []) == Run(Returns(first.result.value), []);
      assert first.calls + [] == first.calls;
    }
  }

  /** A chain of two steps runs the second on what the first returned. */
  lemma ChainOfTwo(o: Optional, s: Step, t: Step)
    ensures Apply(o, s).result.Throws? ==> Chain(o, [s, t]) == Apply(o, s)
    ensures Apply(o, s).result.Returns? ==>
              Chain(o, [s, t]) == (var u := Apply(Apply(o, s).result.value, t);
                                   Run(u.result, Apply(o, s).calls + u.calls))
  {
    assert [s, t][1..] == [t];
    if Apply(o, s).result.Returns? {
      ChainOfOne(Apply(o, s).result.value, t);
    }
  }

  /** An empty container passes unchanged through any chain of `map`,
      `filter`, `take` and `flatMap`, keeping its own empty marker, and no
      callback is invoked. */
  lemma {:induction false} EmptyPassesThroughChain(o: Optional, steps: seq<Step>)
    requires IsEmpty(o)
    requires forall i :: 0 <= i < |steps| ==> Transforms(steps[i])
    ensures Chain(o, steps) == Run(Returns(o), [])
    decreases |steps|
  {
    if steps != [] {
      assert Transforms(steps[0]);
      assert Apply(o, steps[0]) == Run(Returns(o), []);
      EmptyPassesThroughChain(o, steps[1..]);
    }
  }

  /** A present container passes unchanged through any chain of fallbacks
      (`orUse`, `orCompute`, `orFlatCompute`), and no supplier is called. */
  lemma {:induction false} PresentIgnoresFallbacks(o: Optional, steps: seq<Step>)
    requires IsPresent(o)
    requires forall i :: 0 <= i < |steps| ==> !Transforms(steps[i])
    ensures Chain(o, steps) == Run(Returns(o), [])
    decreases |steps|
  {
    if steps != [] {
      assert !Transforms(steps[0]);
      assert Apply(o, steps[0]) == Run(Returns(o), []);
      PresentIgnoresFallbacks(o, steps[1..]);
    }
  }

  /** `map` with the identity leaves the container as it was. */
  lemma MapIdentity(o: Optional)
    ensures Map(o, x => Returns(x)).result == Returns(o)
  {
  }

  /** `f` then `g`, as one mapper: `g` runs only if `f` returned. */
  function Compose(f: Value -> Outcome<Value>, g: Value -> Outcome<Value>): Value -> Outcome<Value> {
    x => match f(x) case Returns(y) => g(y) case Throws(e) => Throws(e)
  }

  /** `map(f).map(g)` is `map(f; g)` as long as `f` does not return an
      empty value (which would make the second `map` skip `g`). */
  lemma MapComposition(o: Optional, f: Value -> Outcome<Value>, g: Value -> Outcome<Value>)
    requires IsPresent(o) ==> !(f(Get(o)).Returns? && IsEmptyValue(f(Get(o)).value))
    ensures Chain(o, [MapStep(f), MapStep(g)]).result == Map(o, Compose(f, g)).result
  {
    ChainOfTwo(o, MapStep(f), MapStep(g));
  }

  /** Wrapping a mapper's value with `Optional.with` and flat-mapping is
      the same call as mapping, invocation included. */
  lemma MapIsFlatMapOfWith(o: Optional, f: Value -> Outcome<Value>)
    ensures Map(o, f) ==
            FlatMap(o, x => match f(x) case Returns(y) => Returns(AnOptional(With(y))) case Throws(e) => Throws(e))
  {
  }

  /** Flat-mapping with `Optional.with` gives back the container. */
  lemma FlatMapWithIsIdentity(o: Optional)
    ensures FlatMap(o, x => Returns(AnOptional(With(x)))).result == Returns(o)
  {
  }

  /** `take(property)` is `map(value => value[property])`. */
  lemma TakeIsMapOfProperty(o: Optional, key: string)
    ensures Map(o, x => Returns(if IsEmptyValue(x) then Undefined else Property(x, key))).result
            == Returns(Take(o, key))
  {
  }

  /** Filtering twice with the same predicate filters once. */
  lemma FilterIdempotent(o: Optional, test: Value -> Outcome<Value>)
    ensures Chain(o, [FilterStep(test), FilterStep(test)]).result == Filter(o, test).result
  {
    ChainOfTwo(o, FilterStep(test), FilterStep(test));
  }

  /** A non-empty fallback always yields a present container, and a second
      fallback then changes nothing. */
  lemma OrUseGivesPresence(o: Optional, x: Value, y: Value)
    requires !IsEmptyValue(x)
    ensures IsPresent(OrUse(o, x))
    ensures OrUse(OrUse(o, x), y) == OrUse(o, x)
  {
  }

  /** `either(a).or(b)` as one call: `or` is reached only if `either` did
      not throw. */
  function EitherChain(o: Optional, a: Value -> Outcome<Value>, b: () -> Outcome<Value>): (r: Run<Outcome<()>>)
    ensures |r.calls| == 1
  {
    var e := Either(o, a);
    match e.result
    case Throws(err) => Run(Throws(err), e.calls)
    case Returns(h) =>
      var rest := Or(h, b);
      Run(rest.result, e.calls + rest.calls)
  }

  /** `either(a).or(b)` and `eitherOr(a, b)` invoke the same action and end
      the same way; the action is the presence action exactly when the
      value is present. */
  lemma EitherChainMatchesEitherOr(o: Optional, a: Value -> Outcome<Value>, b: () -> Outcome<Value>)
    ensures EitherChain(o, a, b) == EitherOr(o, a, Some(b))
    ensures EitherChain(o, a, b).calls == (if IsPresent(o) then [PresenceAction(Get(o))] else [AbsenceAction])
  {
  }

  /** Scenario: `Optional.with(42).map(n => n + 1).map(n => n + 1).get()`
      calls the mapper twice, on 42 and on 43, and gives 44. */
  lemma MapChainScenario()
    ensures var inc := (x: Value) => if x.Num? then Returns(Num(x.n + 1)) else Returns(Undefined);
            var r := Chain(With(Num(42)), [MapStep(inc), MapStep(inc)]);
            r.result.Returns? && Get(r.result.value) == Num(44) && r.calls == [Mapper(Num(42)), Mapper(Num(43))]
  {
    var inc := (x: Value) => if x.Num? then Returns(Num(x.n + 1)) else Returns(Undefined);
    assert Apply(With(Num(42)), MapStep(inc)) == Run(Returns(With(Num(43))), [Mapper(Num(42))]);
    assert Apply(With(Num(43)), MapStep(inc)) == Run(Returns(With(Num(44))), [Mapper(Num(43))]);
    ChainOfTwo(With(Num(42)), MapStep(inc), MapStep(inc));
  }

  /** Scenario: `Optional.with({b: 42}).take('x').get()` is `undefined`. */
  lemma TakeMissingScenario()
    ensures Get(Take(With(Obj(map["b" := Num(42)])), "x")) == Undefined
  {
  }
}
