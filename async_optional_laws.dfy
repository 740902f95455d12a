/**
  Chains of `AsyncOptional` calls and the laws of the asynchronous
  container: how a rejection and an empty value travel along a chain, how
  the plain path and the promise path of one call relate (and the two
  places where they differ), `withEnsured`, the presence queries, and how
  `either(..).or(..)` matches `eitherOr`.
 */
module AsyncOptionalLaws {
  import opened Js
  import opened AsyncOptionals

  /** One transforming call in a fluent chain. */
  datatype AsyncStep =
    | MapStep(mapper: Value -> Outcome<Slot>)
    | FilterStep(test: Value -> Outcome<Slot>)
    | TakeStep(key: string)
    | FlatMapStep(flatMapper: Value -> Outcome<FlatReturn>)
    | OrUseStep(newValue: Slot)
    | OrComputeStep(supplier: () -> Outcome<Slot>)
    | OrFlatComputeStep(flatSupplier: () -> Outcome<FlatReturn>)

  /** Steps that never pass an empty value to a callback (`map`, `filter`,
      `take`, `flatMap`), as opposed to the fallbacks. */
  predicate Transforms(s: AsyncStep) {
    s.MapStep? || s.FilterStep? || s.TakeStep? || s.FlatMapStep?
  }

  /** Performs one step; each step invokes at most one callback. */
  function Apply(o: AsyncOptional, s: AsyncStep): (r: AsyncRun<Outcome<AsyncOptional>>)
    ensures |r.calls| <= 1
    ensures o.slot.Deferred? && o.slot.settled.Rejected? ==> r == AsyncRun(Returns(o), [])
    ensures Transforms(s) && HasEmptyValue(o) ==> r == AsyncRun(Returns(o), [])
  {
    match s
    case MapStep(f) => Map(o, f)
    case FilterStep(t) => Filter(o, t)
    case TakeStep(k) => AsyncRun(Returns(Take(o, k)), [])
    case FlatMapStep(f) => FlatMap(o, f)
    case OrUseStep(x) => AsyncRun(Returns(OrUse(o, x)), [])
    case OrComputeStep(f) => OrCompute(o, f)
    case OrFlatComputeStep(f) => OrFlatCompute(o, f)
  }

  /** A chain runs its steps left to right; a synchronous exception ends
      it. At most one callback is invoked per step. */
  function Chain(o: AsyncOptional, steps: seq<AsyncStep>): (r: AsyncRun<Outcome<AsyncOptional>>)
    ensures |r.calls| <= |steps|
    ensures steps == [] ==> r == AsyncRun(Returns(o), [])
    ensures steps != [] && Apply(o, steps[0]).result.Throws? ==> r == Apply(o, steps[0])
    ensures steps != [] && Apply(o, steps[0]).result.Returns? ==>
              |Apply(o, steps[0]).calls| <= |r.calls| &&
              r.calls[..|Apply(o, steps[0]).calls|] == Apply(o, steps[0]).calls
    decreases |steps|
  {
    if steps == [] then AsyncRun(Returns(o), [])
    else
      var first := Apply(o, steps[0]);
      match first.result
      case Throws(e) => AsyncRun(Throws(e), first.calls)
      case Returns(next) =>
        var rest := Chain(next, steps[1..]);
        AsyncRun(rest.result, first.calls + rest.calls)
  }

  /** A chain of one step is that step. */
  lemma ChainOfOne(o: AsyncOptional, s: AsyncStep)
    ensures Chain(o, [s]) == Apply(o, s)
  {
    assert [s][1..] == [];
    var first := Apply(o, s);
    if first.result.Returns? {
      assert Chain(first.result.value, []) == AsyncRun(Returns(first.result.value), []);
      assert first.calls + [] == first.calls;
    }
  }

  /** A chain of two steps runs the second on what the first returned. */
  lemma ChainOfTwo(o: AsyncOptional, s: AsyncStep, t: AsyncStep)
    ensures Apply(o, s).result.Throws? ==> Chain(o, [s, t]) == Apply(o, s)
    ensures Apply(o, s).result.Returns? ==>
              Chain(o, [s, t]) == (var u := Apply(Apply(o, s).result.value, t);
                                   AsyncRun(u.result, Apply(o, s).calls + u.calls))
  {
    assert [s, t][1..] == [t];
    if Apply(o, s).result.Returns? {
      ChainOfOne(Apply(o, s).result.value, t);
    }
  }

  /** What `get()` on a call's result yields, a synchronous throw counted as
      the failure it carries. */
  function Observe(out: Outcome<AsyncOptional>): (p: Settled<Value>)
    ensures out.Throws? ==> p == Rejected(out.error)
    ensures out.Returns? ==> p == Get(out.value)
  {
    match out
    case Returns(o) => Get(o)
    case Throws(e) => Rejected(e)
  }

  /** A rejected container stays rejected with the same error through any
      chain, fallbacks included, and no callback is ever invoked. */
  lemma {:induction false} RejectionPropagatesThroughChain(o: AsyncOptional, steps: seq<AsyncStep>)
    requires o.slot.Deferred? && o.slot.settled.Rejected?
    ensures Chain(o, steps) == AsyncRun(Returns(o), [])
    decreases |steps|
  {
    if steps != [] {
      assert Apply(o, steps[0]) == AsyncRun(Returns(o), []);
      RejectionPropagatesThroughChain(o, steps[1..]);
    }
  }

  /** A plain empty value passes unchanged (`null` stays `null`,
      `undefined` stays `undefined`) through any chain of `map`, `filter`,
      `take` and `flatMap`, invoking nothing. */
  lemma {:induction false} PlainEmptyPassesThroughChain(o: AsyncOptional, steps: seq<AsyncStep>)
    requires HasEmptyValue(o)
    requires forall i :: 0 <= i < |steps| ==> Transforms(steps[i])
    ensures Chain(o, steps) == AsyncRun(Returns(o), [])
    decreases |steps|
  {
    if steps != [] {
      assert Transforms(steps[0]);
      PlainEmptyPassesThroughChain(o, steps[1..]);
    }
  }

  /** A promise of an empty value, put through any non-empty chain of
      `map`, `filter`, `take` and `flatMap`, becomes a promise of `null`,
      invoking nothing. */
  lemma {:induction false} DeferredEmptyBecomesNull(o: AsyncOptional, steps: seq<AsyncStep>)
    requires o.slot.Deferred? && o.slot.settled.Resolved? && IsEmptyValue(o.slot.settled.value)
    requires |steps| > 0
    requires forall i :: 0 <= i < |steps| ==> Transforms(steps[i])
    ensures Chain(o, steps) == AsyncRun(Returns(AsyncOptional(Deferred(Resolved(Null)))), [])
    decreases |steps|
  {
    var nulled := AsyncOptional(Deferred(Resolved(Null)));
    assert Transforms(steps[0]);
    assert Apply(o, steps[0]) == AsyncRun(Returns(nulled), []);
    if |steps| > 1 {
      DeferredEmptyBecomesNull(nulled, steps[1..]);
    } else {
      assert steps[1..] == [];
    }
  }

  /** Whether a step's callback, called on `v`, hands back something the
      two paths treat alike: a filter verdict that is not a plain `null` or
      `undefined`, and a flat-mapper result that is not a promise. */
  predicate PathsAgreeOn(v: Value, s: AsyncStep) {
    && (s.FilterStep? && s.test(v).Returns? ==> !(s.test(v).value.Plain? && IsEmptyValue(s.test(v).value.v)))
    && (s.FlatMapStep? && s.flatMapper(v).Returns? ==>
          !s.flatMapper(v).value.PromisedInstance? &&
          !(s.flatMapper(v).value.NotInstance? && s.flatMapper(v).value.other.Deferred?))
  }

  /** Holding a value behind a resolved promise instead of plainly changes
      only timing: a step's callback runs in a continuation instead of
      during the call, its exception rejects instead of being thrown, and a
      transforming step turns an empty value into `null`; otherwise the
      value `get()` yields is the same. */
  lemma DeferringTheReceiver(v: Value, s: AsyncStep)
    requires PathsAgreeOn(v, s)
    ensures var plain := Apply(AsyncOptional(Plain(v)), s);
            var deferred := Apply(AsyncOptional(Deferred(Resolved(v))), s);
            && deferred.result.Returns?
            && deferred.calls == Postponed(plain.calls)
            && (if Transforms(s) && IsEmptyValue(v) then
                  Observe(plain.result) == Resolved(v) && Observe(deferred.result) == Resolved(Null)
                else
                  Observe(deferred.result) == Observe(plain.result))
  {
    var plain := Apply(AsyncOptional(Plain(v)), s);
    var deferred := Apply(AsyncOptional(Deferred(Resolved(v))), s);
    match s
    case FilterStep(t) =>
      if !IsEmptyValue(v) {
        match t(v)
        case Throws(e) =>
        case Returns(Plain(verdict)) =>
          assert Continue(t(v)) == Resolved(verdict);
        case Returns(Deferred(p)) =>
      }
    case FlatMapStep(f) =>
    case MapStep(f) =>
    case TakeStep(k) =>
    case OrUseStep(x) =>
    case OrComputeStep(f) =>
    case OrFlatComputeStep(f) =>
  }

  /** Where the paths differ (1): a predicate that returns `undefined` or
      `null` for a plain value makes `filter` throw `TypeError` at once,
      while for a promised value the same verdict is falsy and yields
      `null`. */
  lemma FilterPathsDisagreeOnEmptyVerdict(v: Value, t: Value -> Outcome<Slot>)
    requires !IsEmptyValue(v)
    requires t(v) == Returns(Plain(Undefined)) || t(v) == Returns(Plain(Null))
    ensures Filter(AsyncOptional(Plain(v)), t).result == Throws(TypeError)
    ensures Get(Filter(AsyncOptional(Deferred(Resolved(v))), t).result.value) == Resolved(Null)
  {
  }

  /** Where the paths differ (2): only the promise path of `flatMap` waits
      for a promise the mapper returns; the plain path rejects it with
      `TypeError` at once. */
  lemma FlatMapOnlyPromisePathAwaits(v: Value, f: Value -> Outcome<FlatReturn>, inner: AsyncOptional)
    requires !IsEmptyValue(v)
    requires f(v) == Returns(PromisedInstance(inner))
    ensures FlatMap(AsyncOptional(Plain(v)), f).result == Throws(TypeError)
    ensures Get(FlatMap(AsyncOptional(Deferred(Resolved(v))), f).result.value) == Get(inner)
  {
  }

  /** `withEnsured` yields what `with` yields except that an empty (resolved)
      value becomes a `TypeError`: thrown for a plain value, a rejection
      for a promise. */
  lemma WithEnsuredObserved(s: Slot)
    ensures var held := Get(With(s));
            Observe(WithEnsured(s)) ==
              (if held.Resolved? && IsEmptyValue(held.value) then Rejected(TypeError) else held)
    ensures WithEnsured(s).Throws? ==> s.Plain?
  {
  }

  /** `hasValue()` and `isEmpty()` settle together, to complementary
      booleans or with the same rejection as `get()`. */
  lemma PresenceQueriesComplementary(o: AsyncOptional)
    ensures HasValue(o).Resolved? <==> IsEmpty(o).Resolved?
    ensures HasValue(o).Resolved? ==> HasValue(o).value == !IsEmpty(o).value
    ensures HasValue(o).Rejected? ==> HasValue(o).error == IsEmpty(o).error == Get(o).error
  {
  }

  /** The callbacks of a log, without their timing. */
  function Callbacks(calls: seq<Invocation>): (r: seq<Callback>)
    ensures |r| == |calls|
    ensures forall i :: 0 <= i < |calls| ==> r[i] == calls[i].callback
  {
    seq(|calls|, i requires 0 <= i < |calls| => calls[i].callback)
  }

  /** The error an observation ends with, thrown or as a rejection. */
  function Failure(out: Outcome<Settled<Value>>): (r: Option<Error>)
    ensures r.Some? <==> out.Throws? || out.value.Rejected?
  {
    match out
    case Throws(e) => Some(e)
    case Returns(Rejected(e)) => Some(e)
    case Returns(Resolved(_)) => None
  }

  /** `either(a).or(b)` as one expression: `or` is reached only if
      `either` did not throw. */
  function EitherChain(o: AsyncOptional, a: Value -> Outcome<Slot>, b: () -> Outcome<Slot>): (r: AsyncRun<Outcome<Settled<Value>>>)
    ensures |r.calls| <= 1
    ensures Get(o).Resolved? ==> |r.calls| == 1
  {
    var e := Either(o, a);
    match e.result
    case Throws(err) => AsyncRun(Throws(err), e.calls)
    case Returns(h) =>
      var rest := Or(h, b);
      AsyncRun(Returns(rest.result), e.calls + rest.calls)
  }

  /** `either(a).or(b)` invokes the same action as `eitherOr(a, b)` and
      fails with the same error; on a plain value the presence action runs
      during `either()`, while the absence action always waits for the
      presence branch to settle. */
  lemma EitherChainMatchesEitherOr(o: AsyncOptional, a: Value -> Outcome<Slot>, b: () -> Outcome<Slot>)
    ensures Callbacks(EitherChain(o, a, b).calls) == Callbacks(EitherOr(o, a, Some(b)).calls)
    ensures Failure(EitherChain(o, a, b).result) == Failure(EitherOr(o, a, Some(b)).result)
    ensures HasSyncValue(o) && !HasEmptyValue(o) ==> EitherChain(o, a, b).calls == [Now(PresenceAction(o.slot.v))]
    ensures HasEmptyValue(o) ==> EitherChain(o, a, b).calls == [Later(AbsenceAction)]
  {
  }

  /** Once the value settles, exactly one of the two actions runs: the
      presence action on a present value, the absence action on an empty
      one; a rejected value runs neither. */
  lemma EitherChainRunsExactlyOne(o: AsyncOptional, a: Value -> Outcome<Slot>, b: () -> Outcome<Slot>)
    ensures Get(o).Resolved? ==>
              Callbacks(EitherChain(o, a, b).calls) ==
                (if IsEmptyValue(Get(o).value) then [AbsenceAction] else [PresenceAction(Get(o).value)])
    ensures Get(o).Rejected? ==> EitherChain(o, a, b) == AsyncRun(Returns(Get(o)), [])
  {
  }

  /** Scenario: `AsyncOptional.with(Promise.resolve()).orCompute(() => 777)`
      resolves to 777, the supplier running once the promise has settled. */
  lemma OrComputeOnPromisedUndefinedScenario()
    ensures var r := OrCompute(With(Deferred(Resolved(Undefined))), () => Returns(Plain(Num(777))));
            r.result.Returns? && Get(r.result.value) == Resolved(Num(777)) && r.calls == [Later(Supplier)]
  {
  }

  /** Scenario: `AsyncOptional.with(42).filter(n => n > 42).get()` calls the
      predicate and resolves to `null`. */
  lemma FilterDropsScenario()
    ensures var r := Filter(With(Plain(Num(42))), (x: Value) => Returns(Plain(Bool(x.Num? && x.n > 42))));
            r.result.Returns? && Get(r.result.value) == Resolved(Null) && r.calls == [Now(Predicate(Num(42)))]
  {
  }

  /** Scenario: four mappers adding one, alternately returning a plain value
      and a resolved promise, on `with(Promise.resolve(42))`: all four run,
      after settlement, and the value resolves to 46. */
  lemma MapChainScenario()
    ensures var plain := (x: Value) => Returns(Plain(if x.Num? then Num(x.n + 1) else Undefined));
            var promised := (x: Value) => Returns(Deferred(Resolved(if x.Num? then Num(x.n + 1) else Undefined)));
            var steps := [MapStep(plain), MapStep(promised), MapStep(plain), MapStep(promised)];
            var r := Chain(With(Deferred(Resolved(Num(42)))), steps);
            |r.calls| == 4 && (forall i :: 0 <= i < 4 ==> r.calls[i].Later?) && Observe(r.result) == Resolved(Num(46))
  {
    var plain := (x: Value) => Returns(Plain(if x.Num? then Num(x.n + 1) else Undefined));
    var promised := (x: Value) => Returns(Deferred(Resolved(if x.Num? then Num(x.n + 1) else Undefined)));
    var steps := [MapStep(plain), MapStep(promised), MapStep(plain), MapStep(promised)];
    var at := (n: int) => AsyncOptional(Deferred(Resolved(Num(n))));
    assert steps[2..] == [MapStep(plain), MapStep(promised)];
    ChainOfTwo(at(44), steps[2], steps[3]);
    var tail := Chain(at(44), steps[2..]);
    assert tail == AsyncRun(Returns(at(46)), [Later(Mapper(Num(44))), Later(Mapper(Num(45)))]);
    assert steps[1..][1..] == steps[2..];
    assert Apply(at(43), steps[1]) == AsyncRun(Returns(at(44)), [Later(Mapper(Num(43)))]);
    assert Chain(at(43), steps[1..]) == AsyncRun(Returns(at(46)), [Later(Mapper(Num(43)))] + tail.calls);
    assert Apply(at(42), steps[0]) == AsyncRun(Returns(at(43)), [Later(Mapper(Num(42)))]);
  }
}
