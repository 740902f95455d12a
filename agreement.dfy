/**
  The two containers against each other: an `AsyncOptional` holding a
  plain value, given callbacks that return plain values, behaves call for
  call like an `Optional` holding the same value, through any chain of
  `orUse`, `orCompute`, `orFlatCompute`, `filter`, `take`, `map` and
  `flatMap`, and in `eitherOr`. There are two exceptions:
  - a `filter` predicate that returns `null` or `undefined`, which
    `Optional` treats as falsy and the plain path of `AsyncOptional` turns
    into a thrown `TypeError`;
  - `either(a).or(b)` on an empty value, where `AsyncOptional` runs the
    absence action in a continuation, so its exception becomes a rejection
    instead of being thrown.
 */
module Agreement {
  import opened Js
  import O = Optionals
  import A = AsyncOptionals
  import OL = OptionalLaws
  import AL = AsyncOptionalLaws

  /** The same value, held by an `AsyncOptional` as a plain value. */
  function LiftOptional(o: O.Optional): (a: A.AsyncOptional)
    ensures A.HasSyncValue(a) && A.Get(a) == A.Resolved(O.Get(o))
  {
    A.AsyncOptional(A.Plain(o.value))
  }

  function LiftOutcome(out: Outcome<O.Optional>): Outcome<A.AsyncOptional> {
    match out
    case Returns(o) => Returns(LiftOptional(o))
    case Throws(e) => Throws(e)
  }

  function LiftReturned(r: O.Returned): A.FlatReturn {
    match r
    case AnOptional(o) => A.Instance(LiftOptional(o))
    case NotAnOptional(v) => A.NotInstance(A.Plain(v))
  }

  /** A callback that returns plain values, as `AsyncOptional` sees it. */
  function LiftCallback(f: Value -> Outcome<Value>): Value -> Outcome<A.Slot> {
    x => match f(x) case Returns(v) => Returns(A.Plain(v)) case Throws(e) => Throws(e)
  }

  function LiftSupplier(f: () -> Outcome<Value>): () -> Outcome<A.Slot> {
    () => match f() case Returns(v) => Returns(A.Plain(v)) case Throws(e) => Throws(e)
  }

  function LiftFlatCallback(f: Value -> Outcome<O.Returned>): Value -> Outcome<A.FlatReturn> {
    x => match f(x) case Returns(r) => Returns(LiftReturned(r)) case Throws(e) => Throws(e)
  }

  function LiftFlatSupplier(f: () -> Outcome<O.Returned>): () -> Outcome<A.FlatReturn> {
    () => match f() case Returns(r) => Returns(LiftReturned(r)) case Throws(e) => Throws(e)
  }

  function LiftStep(s: OL.Step): AL.AsyncStep {
    match s
    case MapStep(f) => AL.MapStep(LiftCallback(f))
    case FilterStep(t) => AL.FilterStep(LiftCallback(t))
    case TakeStep(k) => AL.TakeStep(k)
    case FlatMapStep(f) => AL.FlatMapStep(LiftFlatCallback(f))
    case OrUseStep(x) => AL.OrUseStep(A.Plain(x))
    case OrComputeStep(f) => AL.OrComputeStep(LiftSupplier(f))
    case OrFlatComputeStep(f) => AL.OrFlatComputeStep(LiftFlatSupplier(f))
  }

  function LiftSteps(steps: seq<OL.Step>): (r: seq<AL.AsyncStep>)
    ensures |r| == |steps|
    ensures forall i :: 0 <= i < |steps| ==> r[i] == LiftStep(steps[i])
  {
    seq(|steps|, i requires 0 <= i < |steps| => LiftStep(steps[i]))
  }

  /** A synchronous log: every callback ran during its call. */
  function Immediate(calls: seq<Callback>): (r: seq<A.Invocation>)
    ensures |r| == |calls|
    ensures forall i :: 0 <= i < |calls| ==> r[i] == A.Now(calls[i])
  {
    seq(|calls|, i requires 0 <= i < |calls| => A.Now(calls[i]))
  }

  lemma ImmediateDistributes(a: seq<Callback>, b: seq<Callback>)
    ensures Immediate(a + b) == Immediate(a) + Immediate(b)
  {
  }

  /** A `filter` step whose predicate never answers `null` or `undefined`. */
  ghost predicate DefinedVerdicts(s: OL.Step) {
    s.FilterStep? ==> forall x :: s.test(x).Returns? ==> !IsEmptyValue(s.test(x).value)
  }

  /** One call: the plain path of `AsyncOptional` with lifted callbacks gives
      the lifted result of the `Optional` call and runs the same callbacks,
      all during the call. */
  lemma StepAgrees(o: O.Optional, s: OL.Step)
    requires DefinedVerdicts(s)
    ensures var r := OL.Apply(o, s);
            AL.Apply(LiftOptional(o), LiftStep(s)) == A.AsyncRun(LiftOutcome(r.result), Immediate(r.calls))
  {
    match s
    case FilterStep(t) =>
      if !IsEmptyValue(o.value) {
        match t(o.value)
        case Returns(verdict) =>
          assert !IsEmptyValue(verdict);
        case Throws(e) =>
      }
    case MapStep(f) =>
    case TakeStep(k) =>
    case FlatMapStep(f) =>
    case OrUseStep(x) =>
    case OrComputeStep(f) =>
    case OrFlatComputeStep(f) =>
  }

  /** A whole chain: running it on `AsyncOptional` over a plain value agrees
      with running it on `Optional`, result and callbacks alike. */
  lemma {:induction false} ChainAgrees(o: O.Optional, steps: seq<OL.Step>)
    requires forall i :: 0 <= i < |steps| ==> DefinedVerdicts(steps[i])
    ensures var r := OL.Chain(o, steps);
            AL.Chain(LiftOptional(o), LiftSteps(steps)) == A.AsyncRun(LiftOutcome(r.result), Immediate(r.calls))
    decreases |steps|
  {
    var lifted := LiftSteps(steps);
    if steps != [] {
      assert lifted[0] == LiftStep(steps[0]);
      StepAgrees(o, steps[0]);
      var first := OL.Apply(o, steps[0]);
      match first.result
      case Throws(e) =>
      case Returns(next) =>
        assert lifted[1..] == LiftSteps(steps[1..]);
        ChainAgrees(next, steps[1..]);
        ImmediateDistributes(first.calls, OL.Chain(next, steps[1..]).calls);
    }
  }

  /** The one place where the containers part: a predicate answering
      `undefined` is falsy for `Optional` (the value is dropped) but makes
      the plain path of `AsyncOptional` throw `TypeError`. */
  lemma UndefinedVerdictSplitsContainers(v: Value, t: Value -> Outcome<Value>)
    requires !IsEmptyValue(v)
    requires t(v) == Returns(Undefined)
    ensures O.Filter(O.With(v), t).result == Returns(O.Empty())
    ensures A.Filter(LiftOptional(O.With(v)), LiftCallback(t)).result == Throws(TypeError)
  {
  }

  /** `eitherOr` on a plain value runs the same action as `Optional`'s,
      during the call, and throws exactly when `Optional`'s throws. */
  lemma EitherOrAgrees(o: O.Optional, a: Value -> Outcome<Value>, b: () -> Outcome<Value>)
    ensures var r := O.EitherOr(o, a, Some(b));
            var ar := A.EitherOr(LiftOptional(o), LiftCallback(a), Some(LiftSupplier(b)));
            ar.calls == Immediate(r.calls) &&
            (ar.result.Throws? <==> r.result.Throws?) &&
            (r.result.Throws? ==> ar.result.error == r.result.error)
  {
  }

  /** The second place where the containers part: on an empty value,
      `Optional`'s `or` runs the absence action during the call and throws
      its error, while `AsyncOptional`'s `or` runs it after the presence
      branch has settled, so the same error becomes a rejection. */
  lemma EitherOrChainDefersAbsenceError(o: O.Optional, a: Value -> Outcome<Value>, b: () -> Outcome<Value>, e: Error)
    requires O.IsEmpty(o)
    requires b() == Throws(e)
    ensures OL.EitherChain(o, a, b) == O.Run(Throws(e), [AbsenceAction])
    ensures AL.EitherChain(LiftOptional(o), LiftCallback(a), LiftSupplier(b)) ==
            A.AsyncRun(Returns(A.Rejected(e)), [A.Later(AbsenceAction)])
  {
  }
}
