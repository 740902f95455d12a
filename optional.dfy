/**
  The synchronous container of src/Optional.js. An `Optional` holds one
  plain value, set once at construction; every transforming method builds a
  new container, and every callback runs during the call, so a callback's
  exception is thrown straight out of the method.

  Methods that take callbacks return a `Run`: what the call produced
  (`Returns` a value or `Throws` an error) together with the callbacks it
  invoked, in order.
 */
module Optionals {
  import opened Js

  datatype Optional = Optional(value: Value)

  /** The result of a call together with the callbacks it invoked. */
  datatype Run<+R> = Run(result: R, calls: seq<Callback>)

  /** What a flat mapper or flat supplier hands back: an `Optional` instance
      or some other value. */
  datatype Returned = AnOptional(optional: Optional) | NotAnOptional(other: Value)

  /** The handle `either` returns; its `or` consults the original container. */
  datatype OptionalEither = OptionalEither(receiver: Optional)

  /** `assertOptional`: an `Optional` instance passes, anything else is a
      `TypeError`. */
  function AssertOptional(r: Returned): (res: Outcome<Optional>)
    ensures res.Returns? <==> r.AnOptional?
    ensures res.Returns? ==> res.value == r.optional
    ensures res.Throws? ==> res.error == TypeError
  {
    match r
    case AnOptional(o) => Returns(o)
    case NotAnOptional(_) => Throws(TypeError)
  }

  /** `Optional.empty()` holds `null`. */
  function Empty(): (o: Optional)
    ensures IsEmpty(o) && Get(o) == Null
  {
    Optional(Null)
  }

  /** `Optional.with(value)` holds `value` as given, empty or not. */
  function With(v: Value): (o: Optional)
    ensures Get(o) == v
    ensures IsPresent(o) <==> !IsEmptyValue(v)
  {
    Optional(v)
  }

  /** `Optional.withEnsured(value)` throws `TypeError` exactly for an empty
      value and otherwise behaves like `with`. */
  function WithEnsured(v: Value): (r: Outcome<Optional>)
    ensures r.Throws? <==> IsEmptyValue(v)
    ensures r.Throws? ==> r.error == TypeError
    ensures r.Returns? ==> Get(r.value) == v && IsPresent(r.value)
  {
    if IsEmptyValue(v) then Throws(TypeError) else Returns(Optional(v))
  }

  /** `orUse(newValue)`: the current value when present, else `newValue`. */
  function OrUse(o: Optional, newValue: Value): (r: Optional)
    ensures IsPresent(o) ==> Get(r) == Get(o)
    ensures IsEmpty(o) ==> Get(r) == newValue
  {
    Optional(if IsEmptyValue(o.value) then newValue else o.value)
  }

  /** `orCompute(supplier)`: like `orUse` with the supplier's value, where
      the supplier is called only on an empty container. */
  function OrCompute(o: Optional, supplier: () -> Outcome<Value>): (r: Run<Outcome<Optional>>)
    ensures IsPresent(o) ==> r == Run(Returns(o), [])
    ensures IsEmpty(o) ==> r.calls == [Supplier]
    ensures IsEmpty(o) && supplier().Returns? ==> r.result == Returns(OrUse(o, supplier().value))
    ensures IsEmpty(o) && supplier().Throws? ==> r.result == Throws(supplier().error)
  {
    if IsEmptyValue(o.value) then
      match supplier()
      case Returns(v) => Run(Returns(Optional(v)), [Supplier])
      case Throws(e) => Run(Throws(e), [Supplier])
    else
      Run(Returns(Optional(o.value)), [])
  }

  /** `orFlatCompute(optionalSupplier)`: on an empty container the
      supplier's own `Optional`, not re-wrapped, or `TypeError` when it
      returns anything else; a present container is kept. */
  function OrFlatCompute(o: Optional, supplier: () -> Outcome<Returned>): (r: Run<Outcome<Optional>>)
    ensures IsPresent(o) ==> r == Run(Returns(o), [])
    ensures IsEmpty(o) ==> r.calls == [Supplier]
    ensures IsEmpty(o) && supplier().Returns? && supplier().value.AnOptional? ==>
              r.result == Returns(supplier().value.optional)
    ensures IsEmpty(o) && supplier().Returns? && supplier().value.NotAnOptional? ==>
              r.result == Throws(TypeError)
    ensures IsEmpty(o) && supplier().Throws? ==> r.result == Throws(supplier().error)
  {
    if IsEmptyValue(o.value) then
      match supplier()
      case Returns(x) => Run(AssertOptional(x), [Supplier])
      case Throws(e) => Run(Throws(e), [Supplier])
    else
      Run(Returns(Optional(o.value)), [])
  }

  /** `filter(predicate)`: an empty container passes through without the
      predicate being called; otherwise a truthy verdict keeps the value
      and a falsy one yields `empty()`. */
  function Filter(o: Optional, test: Value -> Outcome<Value>): (r: Run<Outcome<Optional>>)
    ensures IsEmpty(o) ==> r == Run(Returns(o), [])
    ensures IsPresent(o) ==> r.calls == [Predicate(o.value)]
    ensures IsPresent(o) && test(o.value).Returns? ==>
              r.result == Returns(if Truthy(test(o.value).value) then o else Empty())
    ensures IsPresent(o) && test(o.value).Throws? ==> r.result == Throws(test(o.value).error)
  {
    if IsEmptyValue(o.value) then
      Run(Returns(Optional(o.value)), [])
    else
      match test(o.value)
      case Returns(verdict) =>
        Run(Returns(if Truthy(verdict) then Optional(o.value) else Empty()), [Predicate(o.value)])
      case Throws(e) => Run(Throws(e), [Predicate(o.value)])
  }

  /** `take(property)`: keeps the empty marker on an empty container,
      otherwise holds the property (`undefined` when there is none). */
  function Take(o: Optional, key: string): (r: Optional)
    ensures IsEmpty(o) ==> r == o
    ensures IsPresent(o) ==> Get(r) == Property(Get(o), key)
  {
    if IsEmptyValue(o.value) then Optional(o.value) else With(Property(o.value, key))
  }

  /** `map(mapper)`: an empty container keeps its own marker and the mapper
      is not called; otherwise the container holds the mapper's result. */
  function Map(o: Optional, mapper: Value -> Outcome<Value>): (r: Run<Outcome<Optional>>)
    ensures IsEmpty(o) ==> r == Run(Returns(o), [])
    ensures IsPresent(o) ==> r.calls == [Mapper(o.value)]
    ensures IsPresent(o) ==> (r.result.Returns? <==> mapper(o.value).Returns?)
    ensures IsPresent(o) && r.result.Returns? ==> Get(r.result.value) == mapper(o.value).value
    ensures IsPresent(o) && r.result.Throws? ==> r.result.error == mapper(o.value).error
  {
    if IsEmptyValue(o.value) then
      Run(Returns(Optional(o.value)), [])
    else
      match mapper(o.value)
      case Returns(v) => Run(Returns(Optional(v)), [Mapper(o.value)])
      case Throws(e) => Run(Throws(e), [Mapper(o.value)])
  }

  /** `flatMap(mapper)`: on a present value, the mapper's own `Optional`
      or `TypeError` when it returns anything else; an empty container
      passes through and the mapper is not called. */
  function FlatMap(o: Optional, mapper: Value -> Outcome<Returned>): (r: Run<Outcome<Optional>>)
    ensures IsEmpty(o) ==> r == Run(Returns(o), [])
    ensures IsPresent(o) ==> r.calls == [Mapper(o.value)]
    ensures IsPresent(o) && mapper(o.value).Returns? && mapper(o.value).value.AnOptional? ==>
              r.result == Returns(mapper(o.value).value.optional)
    ensures IsPresent(o) && mapper(o.value).Returns? && mapper(o.value).value.NotAnOptional? ==>
              r.result == Throws(TypeError)
    ensures IsPresent(o) && mapper(o.value).Throws? ==> r.result == Throws(mapper(o.value).error)
  {
    if IsEmptyValue(o.value) then
      Run(Returns(Optional(o.value)), [])
    else
      match mapper(o.value)
      case Returns(x) => Run(AssertOptional(x), [Mapper(o.value)])
      case Throws(e) => Run(Throws(e), [Mapper(o.value)])
  }

  /** `ifPresent(action)`: runs the action on the value only when present;
      its exception propagates. */
  function IfPresent(o: Optional, action: Value -> Outcome<Value>): (r: Run<Outcome<()>>)
    ensures IsEmpty(o) ==> r == Run(Returns(()), [])
    ensures IsPresent(o) ==> r.calls == [PresenceAction(o.value)]
    ensures IsPresent(o) ==> (r.result.Throws? <==> action(o.value).Throws?)
    ensures IsPresent(o) && r.result.Throws? ==> r.result.error == action(o.value).error
  {
    if !IsEmptyValue(o.value) then
      match action(o.value)
      case Returns(_) => Run(Returns(()), [PresenceAction(o.value)])
      case Throws(e) => Run(Throws(e), [PresenceAction(o.value)])
    else
      Run(Returns(()), [])
  }

  /** `ifEmpty(action)`: runs the action only when empty; its exception
      propagates. */
  function IfEmpty(o: Optional, action: () -> Outcome<Value>): (r: Run<Outcome<()>>)
    ensures IsPresent(o) ==> r == Run(Returns(()), [])
    ensures IsEmpty(o) ==> r.calls == [AbsenceAction]
    ensures IsEmpty(o) ==> (r.result.Throws? <==> action().Throws?)
    ensures IsEmpty(o) && r.result.Throws? ==> r.result.error == action().error
  {
    if IsEmptyValue(o.value) then
      match action()
      case Returns(_) => Run(Returns(()), [AbsenceAction])
      case Throws(e) => Run(Throws(e), [AbsenceAction])
    else
      Run(Returns(()), [])
  }

  /** `either(actionOnPresence)`: runs the presence action at once (as
      `ifPresent`) and, unless it threw, hands back the handle for `or`. */
  function Either(o: Optional, actionOnPresence: Value -> Outcome<Value>): (r: Run<Outcome<OptionalEither>>)
    ensures IsEmpty(o) ==> r == Run(Returns(OptionalEither(o)), [])
    ensures IsPresent(o) ==> r.calls == [PresenceAction(o.value)]
    ensures IsPresent(o) && actionOnPresence(o.value).Returns? ==> r.result == Returns(OptionalEither(o))
    ensures IsPresent(o) && actionOnPresence(o.value).Throws? ==>
              r.result == Throws(actionOnPresence(o.value).error)
  {
    var presence := IfPresent(o, actionOnPresence);
    match presence.result
    case Returns(_) => Run(Returns(OptionalEither(o)), presence.calls)
    case Throws(e) => Run(Throws(e), presence.calls)
  }

  /** The handle's `or(actionOnAbsence)`: runs the absence action only
      when the original container is empty. */
  function Or(h: OptionalEither, actionOnAbsence: () -> Outcome<Value>): (r: Run<Outcome<()>>)
    ensures IsPresent(h.receiver) ==> r == Run(Returns(()), [])
    ensures IsEmpty(h.receiver) ==> r.calls == [AbsenceAction]
    ensures IsEmpty(h.receiver) ==> (r.result.Throws? <==> actionOnAbsence().Throws?)
    ensures IsEmpty(h.receiver) && r.result.Throws? ==> r.result.error == actionOnAbsence().error
  {
    IfEmpty(h.receiver, actionOnAbsence)
  }

  /** `eitherOr(actionOnPresence, actionOnAbsence?)`: runs exactly the
      action that matches the state; with the absence action omitted an
      empty container runs nothing. */
  function EitherOr(o: Optional, actionOnPresence: Value -> Outcome<Value>,
                    actionOnAbsence: Option<() -> Outcome<Value>>): (r: Run<Outcome<()>>)
    ensures IsPresent(o) ==> r.calls == [PresenceAction(o.value)]
    ensures IsPresent(o) ==> (r.result.Throws? <==> actionOnPresence(o.value).Throws?)
    ensures IsPresent(o) && r.result.Throws? ==> r.result.error == actionOnPresence(o.value).error
    ensures IsEmpty(o) && actionOnAbsence.Some? ==> r.calls == [AbsenceAction]
    ensures IsEmpty(o) && actionOnAbsence.Some? ==> (r.result.Throws? <==> actionOnAbsence.value().Throws?)
    ensures IsEmpty(o) && actionOnAbsence.Some? && r.result.Throws? ==> r.result.error == actionOnAbsence.value().error
    ensures IsEmpty(o) && actionOnAbsence.None? ==> r == Run(Returns(()), [])
  {
    if IsEmptyValue(o.value) then
      match actionOnAbsence
      case Some(absent) =>
        (match absent()
         case Returns(_) => Run(Returns(()), [AbsenceAction])
         case Throws(e) => Run(Throws(e), [AbsenceAction]))
      case None => Run(Returns(()), [])
    else
      match actionOnPresence(o.value)
      case Returns(_) => Run(Returns(()), [PresenceAction(o.value)])
      case Throws(e) => Run(Throws(e), [PresenceAction(o.value)])
  }

  /** `isPresent()` is always the negation of `isEmpty()`. */
  function IsPresent(o: Optional): (b: bool)
    ensures b == !IsEmpty(o)
  {
    !IsEmptyValue(o.value)
  }

  /** `isEmpty()`: the held value is `null` or `undefined`. */
  function IsEmpty(o: Optional): (b: bool)
    ensures b <==> Get(o) == Null || Get(o) == Undefined
  {
    IsEmptyValue(o.value)
  }

  /** `get()` returns the held value unchanged, empty marker included. */
  function Get(o: Optional): (v: Value)
    ensures Optional(v) == o
  {
    o.value
  }
}
