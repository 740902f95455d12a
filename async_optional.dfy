/**
  The asynchronous container of src/AsyncOptional.js. Its slot holds either
  a plain value or a promise. The two are handled on two paths:

  - a plain value is handled during the call: callbacks run at once
    (`Now`) and their exceptions are thrown out of the method (`Throws`);
  - a promise is handled by chaining `.then`: callbacks run in a
    continuation (`Later`) and their exceptions become the rejection of the
    resulting promise (`Rejected`).

  Promises are modelled by how they settle; scheduling is not modelled.
 */
module AsyncOptionals {
  import opened Js

  /** How a promise settles. */
  datatype Settled<+T> = Resolved(value: T) | Rejected(error: Error)

  /** The held slot: a plain value, or a promise of a plain value. */
  datatype Slot = Plain(v: Value) | Deferred(settled: Settled<Value>)

  datatype AsyncOptional = AsyncOptional(slot: Slot)

  /** When a callback ran: during the method call, or in a continuation
      after a promise settled. */
  datatype Invocation = Now(callback: Callback) | Later(callback: Callback)

  /** The result of a call together with the callbacks it invoked. */
  datatype AsyncRun<+R> = AsyncRun(result: R, calls: seq<Invocation>)

  /** What a flat mapper or flat supplier hands back: an `AsyncOptional`
      instance, a promise that resolves to one, or anything else (a plain
      value or a promise of one). */
  datatype FlatReturn =
    | Instance(optional: AsyncOptional)
    | PromisedInstance(optional: AsyncOptional)
    | NotInstance(other: Slot)

  /** The handle `either` returns: the promise of the presence branch and
      the original container. */
  datatype EitherHandle = EitherHandle(presence: Settled<Value>, receiver: AsyncOptional)

  /** `isPromise`: the duck-typed `then` check, here the slot's tag. */
  predicate IsPromise(s: Slot) {
    s.Deferred?
  }

  /** `ensurePromise`: a promise is used as it is, anything else (empty
      values included) becomes a promise resolved to it. */
  function EnsurePromise(s: Slot): (p: Settled<Value>)
    ensures !IsPromise(s) ==> p == Resolved(s.v)
    ensures IsPromise(s) ==> p == s.settled
  {
    match s
    case Plain(v) => Resolved(v)
    case Deferred(p) => p
  }

  /** `assertOptional`: an `AsyncOptional` instance passes; anything else,
      a promise of an instance included, is a `TypeError`. */
  function AssertOptional(r: FlatReturn): (res: Outcome<AsyncOptional>)
    ensures res.Returns? <==> r.Instance?
    ensures res.Returns? ==> res.value == r.optional
    ensures res.Throws? ==> res.error == TypeError
  {
    match r
    case Instance(o) => Returns(o)
    case PromisedInstance(_) => Throws(TypeError)
    case NotInstance(_) => Throws(TypeError)
  }

  /** `ensureOptionalValue`: the promise `get()` gives for an instance, and
      a thrown `TypeError` for anything else. */
  function EnsureOptionalValue(r: FlatReturn): (res: Outcome<Settled<Value>>)
    ensures res.Returns? <==> r.Instance?
    ensures res.Returns? ==> res.value == Get(r.optional)
    ensures res.Throws? ==> res.error == TypeError
  {
    match AssertOptional(r)
    case Returns(o) => Returns(Get(o))
    case Throws(e) => Throws(e)
  }

  /** How the promise a `.then` returns settles when its continuation ends
      with `out`: a throw rejects it, a returned promise is adopted, a
      returned value resolves it. */
  function Continue(out: Outcome<Slot>): (p: Settled<Value>)
    ensures out.Throws? ==> p == Rejected(out.error)
    ensures out.Returns? ==> p == EnsurePromise(out.value)
  {
    match out
    case Returns(s) => EnsurePromise(s)
    case Throws(e) => Rejected(e)
  }

  /** `new AsyncOptional(callback())` on the plain path: the callback's
      exception is thrown out of the method. */
  function Hold(out: Outcome<Slot>): (r: Outcome<AsyncOptional>)
    ensures out.Returns? ==> r == Returns(AsyncOptional(out.value))
    ensures out.Throws? ==> r == Throws(out.error)
  {
    match out
    case Returns(s) => Returns(AsyncOptional(s))
    case Throws(e) => Throws(e)
  }

  /** `Promise.resolve(mapperResult).then(ensureOptionalValue)`: an instance
      or a promise of one is adopted through its `get()`; a rejection is
      passed on; any other value rejects with `TypeError`. */
  function AwaitInstance(r: FlatReturn): (p: Settled<Value>)
    ensures r.Instance? || r.PromisedInstance? ==> p == Get(r.optional)
    ensures r.NotInstance? && r.other.Deferred? && r.other.settled.Rejected? ==> p == r.other.settled
    ensures r.NotInstance? && !(r.other.Deferred? && r.other.settled.Rejected?) ==> p == Rejected(TypeError)
  {
    match r
    case Instance(o) => Get(o)
    case PromisedInstance(o) => Get(o)
    case NotInstance(Deferred(Rejected(e))) => Rejected(e)
    case NotInstance(_) => Rejected(TypeError)
  }

  /** `AsyncOptional.empty()` holds a plain `null`. */
  function Empty(): (o: AsyncOptional)
    ensures HasEmptyValue(o) && Get(o) == Resolved(Null)
  {
    AsyncOptional(Plain(Null))
  }

  /** `AsyncOptional.with(value)`: the plain value or the promise as given. */
  function With(s: Slot): (o: AsyncOptional)
    ensures Get(o) == EnsurePromise(s)
    ensures HasSyncValue(o) <==> !IsPromise(s)
  {
    AsyncOptional(s)
  }

  /** `AsyncOptional.withEnsured(value)`: a plain empty value throws
      `TypeError` at once; a promise is checked when it resolves, so a
      promise of an empty value gives a container whose `get()` rejects
      with `TypeError`; any other value is held as by `with`. */
  function WithEnsured(s: Slot): (r: Outcome<AsyncOptional>)
    ensures r.Throws? <==> s.Plain? && IsEmptyValue(s.v)
    ensures r.Throws? ==> r.error == TypeError
    ensures r.Returns? && s.Plain? ==> r.value == With(s)
    ensures r.Returns? ==> HasSyncValue(r.value) == s.Plain?
    ensures r.Returns? && s.Deferred? && s.settled.Resolved? ==>
              Get(r.value) == (if IsEmptyValue(s.settled.value) then Rejected(TypeError) else s.settled)
    ensures r.Returns? && s.Deferred? && s.settled.Rejected? ==> Get(r.value) == s.settled
  {
    match s
    case Plain(v) => if IsEmptyValue(v) then Throws(TypeError) else Returns(AsyncOptional(s))
    case Deferred(Rejected(e)) => Returns(AsyncOptional(Deferred(Rejected(e))))
    case Deferred(Resolved(v)) =>
      Returns(AsyncOptional(Deferred(if IsEmptyValue(v) then Rejected(TypeError) else Resolved(v))))
  }

  /** `hasSyncValue()`: the slot is not a promise. */
  predicate HasSyncValue(o: AsyncOptional) {
    !IsPromise(o.slot)
  }

  /** `hasEmptyValue()`: the slot holds a plain `null` or `undefined`
      (a promise is never an empty value). */
  predicate HasEmptyValue(o: AsyncOptional) {
    o.slot.Plain? && IsEmptyValue(o.slot.v)
  }

  /** `orUse(newValue)`: a plain empty container is replaced by `newValue`
      (plain or promise); a plain present one is kept; on the promise path
      `newValue` is adopted only when the promise resolves to an empty
      value. */
  function OrUse(o: AsyncOptional, newValue: Slot): (r: AsyncOptional)
    ensures HasEmptyValue(o) ==> r == With(newValue)
    ensures HasSyncValue(o) && !HasEmptyValue(o) ==> r == o
    ensures IsPromise(o.slot) ==> IsPromise(r.slot)
    ensures IsPromise(o.slot) && o.slot.settled.Resolved? && IsEmptyValue(o.slot.settled.value) ==>
              Get(r) == EnsurePromise(newValue)
    ensures IsPromise(o.slot) && !(o.slot.settled.Resolved? && IsEmptyValue(o.slot.settled.value)) ==>
              Get(r) == Get(o)
  {
    if HasEmptyValue(o) then AsyncOptional(newValue)
    else
      match o.slot
      case Plain(_) => AsyncOptional(o.slot)
      case Deferred(Rejected(e)) => AsyncOptional(Deferred(Rejected(e)))
      case Deferred(Resolved(v)) =>
        AsyncOptional(Deferred(if IsEmptyValue(v) then EnsurePromise(newValue) else Resolved(v)))
  }

  /** `orCompute(supplier)`: the supplier runs only for an empty value (at
      once on the plain path, in a continuation on the promise path) and
      its result is used as `orUse` would use `newValue`. */
  function OrCompute(o: AsyncOptional, supplier: () -> Outcome<Slot>): (r: AsyncRun<Outcome<AsyncOptional>>)
    ensures HasEmptyValue(o) ==> r == AsyncRun(Hold(supplier()), [Now(Supplier)])
    ensures !HasEmptyValue(o) && !(IsPromise(o.slot) && o.slot.settled.Resolved? && IsEmptyValue(o.slot.settled.value)) ==>
              r == AsyncRun(Returns(o), [])
    ensures IsPromise(o.slot) && o.slot.settled.Resolved? && IsEmptyValue(o.slot.settled.value) ==>
              r.calls == [Later(Supplier)] && r.result.Returns? && Get(r.result.value) == Continue(supplier())
    ensures supplier().Returns? && r.result.Returns? ==> r.result.value == OrUse(o, supplier().value)
  {
    if HasEmptyValue(o) then
      AsyncRun(Hold(supplier()), [Now(Supplier)])
    else
      match o.slot
      case Plain(_) => AsyncRun(Returns(AsyncOptional(o.slot)), [])
      case Deferred(Rejected(e)) => AsyncRun(Returns(AsyncOptional(Deferred(Rejected(e)))), [])
      case Deferred(Resolved(v)) =>
        if IsEmptyValue(v) then
          AsyncRun(Returns(AsyncOptional(Deferred(Continue(supplier())))), [Later(Supplier)])
        else
          AsyncRun(Returns(AsyncOptional(Deferred(Resolved(v)))), [])
  }

  /** `orFlatCompute(optionalSupplier)`: on a plain empty value the
      supplier's own instance is returned (anything else throws
      `TypeError`); on the promise path the supplier runs only if the
      promise resolves to an empty value, and the result adopts the
      instance's `get()` or rejects with `TypeError`. */
  function OrFlatCompute(o: AsyncOptional, supplier: () -> Outcome<FlatReturn>): (r: AsyncRun<Outcome<AsyncOptional>>)
    ensures HasEmptyValue(o) ==> r.calls == [Now(Supplier)]
    ensures HasEmptyValue(o) && supplier().Returns? ==> r.result == AssertOptional(supplier().value)
    ensures HasEmptyValue(o) && supplier().Throws? ==> r.result == Throws(supplier().error)
    ensures !HasEmptyValue(o) && !(IsPromise(o.slot) && o.slot.settled.Resolved? && IsEmptyValue(o.slot.settled.value)) ==>
              r == AsyncRun(Returns(o), [])
    ensures IsPromise(o.slot) && o.slot.settled.Resolved? && IsEmptyValue(o.slot.settled.value) ==>
              r.calls == [Later(Supplier)] && r.result.Returns? && IsPromise(r.result.value.slot)
    ensures IsPromise(o.slot) && o.slot.settled.Resolved? && IsEmptyValue(o.slot.settled.value) && supplier().Returns? ==>
              Get(r.result.value) == (if supplier().value.Instance? then Get(supplier().value.optional) else Rejected(TypeError))
    ensures IsPromise(o.slot) && o.slot.settled.Resolved? && IsEmptyValue(o.slot.settled.value) && supplier().Throws? ==>
              Get(r.result.value) == Rejected(supplier().error)
  {
    if HasEmptyValue(o) then
      match supplier()
      case Returns(x) => AsyncRun(AssertOptional(x), [Now(Supplier)])
      case Throws(e) => AsyncRun(Throws(e), [Now(Supplier)])
    else
      match o.slot
      case Plain(_) => AsyncRun(Returns(AsyncOptional(o.slot)), [])
      case Deferred(Rejected(e)) => AsyncRun(Returns(AsyncOptional(Deferred(Rejected(e)))), [])
      case Deferred(Resolved(v)) =>
        if IsEmptyValue(v) then
          var p :=
            match supplier()
            case Returns(x) =>
              (match EnsureOptionalValue(x)
               case Returns(q) => q
               case Throws(e) => Rejected(e))
            case Throws(e) => Rejected(e);
          AsyncRun(Returns(AsyncOptional(Deferred(p))), [Later(Supplier)])
        else
          AsyncRun(Returns(AsyncOptional(Deferred(Resolved(v)))), [])
  }

  /** `filter(predicate)`: an empty value is never tested. A plain empty
      value passes through unchanged; a promise of an empty value yields
      `null`. A truthy verdict (or a promise of one) keeps the value, a
      falsy one yields `null`. On the plain path a verdict that is `null`
      or `undefined` makes the duck-typed promise check throw `TypeError`. */
  function Filter(o: AsyncOptional, test: Value -> Outcome<Slot>): (r: AsyncRun<Outcome<AsyncOptional>>)
    ensures HasEmptyValue(o) ==> r == AsyncRun(Returns(o), [])
    ensures HasSyncValue(o) && !HasEmptyValue(o) ==> r.calls == [Now(Predicate(o.slot.v))]
    ensures HasSyncValue(o) && !HasEmptyValue(o) && test(o.slot.v).Throws? ==>
              r.result == Throws(test(o.slot.v).error)
    ensures HasSyncValue(o) && !HasEmptyValue(o) && test(o.slot.v).Returns? && test(o.slot.v).value.Plain? ==>
              r.result == (var verdict := test(o.slot.v).value.v;
                           if IsEmptyValue(verdict) then Throws(TypeError)
                           else if Truthy(verdict) then Returns(o) else Returns(Empty()))
    ensures HasSyncValue(o) && !HasEmptyValue(o) && test(o.slot.v).Returns? && test(o.slot.v).value.Deferred? ==>
              r.result.Returns? && IsPromise(r.result.value.slot) &&
              Get(r.result.value) == (match test(o.slot.v).value.settled
                                      case Resolved(verdict) => Resolved(if Truthy(verdict) then o.slot.v else Null)
                                      case Rejected(e) => Rejected(e))
    ensures IsPromise(o.slot) ==> r.result.Returns? && IsPromise(r.result.value.slot)
    ensures IsPromise(o.slot) && o.slot.settled.Rejected? ==> r == AsyncRun(Returns(o), [])
    ensures IsPromise(o.slot) && o.slot.settled.Resolved? && IsEmptyValue(o.slot.settled.value) ==>
              r == AsyncRun(Returns(AsyncOptional(Deferred(Resolved(Null)))), [])
    ensures IsPromise(o.slot) && o.slot.settled.Resolved? && !IsEmptyValue(o.slot.settled.value) ==>
              var v := o.slot.settled.value;
              r.calls == [Later(Predicate(v))] &&
              Get(r.result.value) == (match Continue(test(v))
                                      case Resolved(verdict) => Resolved(if Truthy(verdict) then v else Null)
                                      case Rejected(e) => Rejected(e))
  {
    if HasEmptyValue(o) then
      AsyncRun(Returns(AsyncOptional(o.slot)), [])
    else
      match o.slot
      case Plain(v) =>
        var result :=
          match test(v)
          case Throws(e) => Throws(e)
          case Returns(Deferred(Rejected(e))) => Returns(AsyncOptional(Deferred(Rejected(e))))
          case Returns(Deferred(Resolved(verdict))) =>
            Returns(AsyncOptional(Deferred(Resolved(if Truthy(verdict) then v else Null))))
          case Returns(Plain(verdict)) =>
            if IsEmptyValue(verdict) then Throws(TypeError)
            else if Truthy(verdict) then Returns(AsyncOptional(o.slot))
            else Returns(Empty());
        AsyncRun(result, [Now(Predicate(v))])
      case Deferred(Rejected(e)) => AsyncRun(Returns(AsyncOptional(Deferred(Rejected(e)))), [])
      case Deferred(Resolved(v)) =>
        if IsEmptyValue(v) then
          AsyncRun(Returns(AsyncOptional(Deferred(Resolved(Null)))), [])
        else
          var p :=
            match Continue(test(v))
            case Resolved(verdict) => Resolved(if Truthy(verdict) then v else Null)
            case Rejected(e) => Rejected(e);
          AsyncRun(Returns(AsyncOptional(Deferred(p))), [Later(Predicate(v))])
  }

  /** `take(property)`: a plain empty value passes through unchanged; a
      promise of an empty value yields `null`; otherwise the property, or
      `undefined` when there is none. */
  function Take(o: AsyncOptional, key: string): (r: AsyncOptional)
    ensures HasEmptyValue(o) ==> r == o
    ensures HasSyncValue(o) && !HasEmptyValue(o) ==> r == With(Plain(Property(o.slot.v, key)))
    ensures IsPromise(o.slot) ==> IsPromise(r.slot)
    ensures IsPromise(o.slot) && o.slot.settled.Resolved? ==>
              Get(r) == Resolved(var v := o.slot.settled.value; if IsEmptyValue(v) then Null else Property(v, key))
    ensures IsPromise(o.slot) && o.slot.settled.Rejected? ==> r == o
  {
    if HasEmptyValue(o) then AsyncOptional(o.slot)
    else
      match o.slot
      case Plain(v) => AsyncOptional(Plain(Property(v, key)))
      case Deferred(Rejected(e)) => AsyncOptional(Deferred(Rejected(e)))
      case Deferred(Resolved(v)) =>
        AsyncOptional(Deferred(Resolved(if IsEmptyValue(v) then Null else Property(v, key))))
  }

  /** `map(mapper)`: the mapper never sees an empty value. A plain empty
      value passes through unchanged and a promise of an empty value
      yields `null`. On the plain path the mapper's result (value or
      promise) is held as it is and its exception is thrown; on the
      promise path its result is adopted and its exception rejects. */
  function Map(o: AsyncOptional, mapper: Value -> Outcome<Slot>): (r: AsyncRun<Outcome<AsyncOptional>>)
    ensures HasEmptyValue(o) ==> r == AsyncRun(Returns(o), [])
    ensures HasSyncValue(o) && !HasEmptyValue(o) ==>
              r == AsyncRun(Hold(mapper(o.slot.v)), [Now(Mapper(o.slot.v))])
    ensures IsPromise(o.slot) ==> r.result.Returns? && IsPromise(r.result.value.slot)
    ensures IsPromise(o.slot) && o.slot.settled.Rejected? ==> r == AsyncRun(Returns(o), [])
    ensures IsPromise(o.slot) && o.slot.settled.Resolved? && IsEmptyValue(o.slot.settled.value) ==>
              r == AsyncRun(Returns(AsyncOptional(Deferred(Resolved(Null)))), [])
    ensures IsPromise(o.slot) && o.slot.settled.Resolved? && !IsEmptyValue(o.slot.settled.value) ==>
              var v := o.slot.settled.value;
              r.calls == [Later(Mapper(v))] && Get(r.result.value) == Continue(mapper(v))
  {
    if HasEmptyValue(o) then
      AsyncRun(Returns(AsyncOptional(o.slot)), [])
    else
      match o.slot
      case Plain(v) => AsyncRun(Hold(mapper(v)), [Now(Mapper(v))])
      case Deferred(Rejected(e)) => AsyncRun(Returns(AsyncOptional(Deferred(Rejected(e)))), [])
      case Deferred(Resolved(v)) =>
        if IsEmptyValue(v) then
          AsyncRun(Returns(AsyncOptional(Deferred(Resolved(Null)))), [])
        else
          AsyncRun(Returns(AsyncOptional(Deferred(Continue(mapper(v))))), [Later(Mapper(v))])
  }

  /** `flatMap(mapper)`: the mapper never sees an empty value. On the plain
      path the mapper's instance itself is returned and anything else, a
      promise of an instance included, throws `TypeError`; on the promise
      path an instance or a promise of one is adopted through its `get()`
      and anything else rejects with `TypeError`. */
  function FlatMap(o: AsyncOptional, mapper: Value -> Outcome<FlatReturn>): (r: AsyncRun<Outcome<AsyncOptional>>)
    ensures HasEmptyValue(o) ==> r == AsyncRun(Returns(o), [])
    ensures HasSyncValue(o) && !HasEmptyValue(o) ==> r.calls == [Now(Mapper(o.slot.v))]
    ensures HasSyncValue(o) && !HasEmptyValue(o) && mapper(o.slot.v).Returns? ==>
              r.result == AssertOptional(mapper(o.slot.v).value)
    ensures HasSyncValue(o) && !HasEmptyValue(o) && mapper(o.slot.v).Throws? ==>
              r.result == Throws(mapper(o.slot.v).error)
    ensures IsPromise(o.slot) ==> r.result.Returns? && IsPromise(r.result.value.slot)
    ensures IsPromise(o.slot) && o.slot.settled.Rejected? ==> r == AsyncRun(Returns(o), [])
    ensures IsPromise(o.slot) && o.slot.settled.Resolved? && IsEmptyValue(o.slot.settled.value) ==>
              r == AsyncRun(Returns(AsyncOptional(Deferred(Resolved(Null)))), [])
    ensures IsPromise(o.slot) && o.slot.settled.Resolved? && !IsEmptyValue(o.slot.settled.value) ==>
              var v := o.slot.settled.value;
              r.calls == [Later(Mapper(v))] &&
              Get(r.result.value) == (match mapper(v)
                                      case Returns(x) => AwaitInstance(x)
                                      case Throws(e) => Rejected(e))
  {
    if HasEmptyValue(o) then
      AsyncRun(Returns(AsyncOptional(o.slot)), [])
    else
      match o.slot
      case Plain(v) =>
        var result :=
          match mapper(v)
          case Returns(x) => AssertOptional(x)
          case Throws(e) => Throws(e);
        AsyncRun(result, [Now(Mapper(v))])
      case Deferred(Rejected(e)) => AsyncRun(Returns(AsyncOptional(Deferred(Rejected(e)))), [])
      case Deferred(Resolved(v)) =>
        if IsEmptyValue(v) then
          AsyncRun(Returns(AsyncOptional(Deferred(Resolved(Null)))), [])
        else
          var p :=
            match mapper(v)
            case Returns(x) => AwaitInstance(x)
            case Throws(e) => Rejected(e);
          AsyncRun(Returns(AsyncOptional(Deferred(p))), [Later(Mapper(v))])
  }

  /** `ifPresent(action)`: the action runs only on a present value; the
      returned promise settles as the action's result does. On the plain
      path the action's exception is thrown out of the call. */
  function IfPresent(o: AsyncOptional, action: Value -> Outcome<Slot>): (r: AsyncRun<Outcome<Settled<Value>>>)
    ensures HasEmptyValue(o) ==> r == AsyncRun(Returns(Resolved(Undefined)), [])
    ensures HasSyncValue(o) && !HasEmptyValue(o) ==> r.calls == [Now(PresenceAction(o.slot.v))]
    ensures HasSyncValue(o) && !HasEmptyValue(o) && action(o.slot.v).Throws? ==>
              r.result == Throws(action(o.slot.v).error)
    ensures HasSyncValue(o) && !HasEmptyValue(o) && action(o.slot.v).Returns? ==>
              r.result == Returns(EnsurePromise(action(o.slot.v).value))
    ensures IsPromise(o.slot) ==> r.result.Returns?
    ensures IsPromise(o.slot) && o.slot.settled.Rejected? ==> r == AsyncRun(Returns(o.slot.settled), [])
    ensures IsPromise(o.slot) && o.slot.settled.Resolved? && IsEmptyValue(o.slot.settled.value) ==>
              r == AsyncRun(Returns(Resolved(Undefined)), [])
    ensures IsPromise(o.slot) && o.slot.settled.Resolved? && !IsEmptyValue(o.slot.settled.value) ==>
              var v := o.slot.settled.value;
              r == AsyncRun(Returns(Continue(action(v))), [Later(PresenceAction(v))])
  {
    if HasEmptyValue(o) then
      AsyncRun(Returns(Resolved(Undefined)), [])
    else
      match o.slot
      case Plain(v) =>
        var result :=
          match action(v)
          case Returns(s) => Returns(EnsurePromise(s))
          case Throws(e) => Throws(e);
        AsyncRun(result, [Now(PresenceAction(v))])
      case Deferred(Rejected(e)) => AsyncRun(Returns(Rejected(e)), [])
      case Deferred(Resolved(v)) =>
        if !IsEmptyValue(v) then
          AsyncRun(Returns(Continue(action(v))), [Later(PresenceAction(v))])
        else
          AsyncRun(Returns(Resolved(Undefined)), [])
  }

  /** `ifAbsent(action)`: the action runs only on an empty value; the
      returned promise settles as the action's result does. On the plain
      path the action's exception is thrown out of the call. */
  function IfAbsent(o: AsyncOptional, action: () -> Outcome<Slot>): (r: AsyncRun<Outcome<Settled<Value>>>)
    ensures HasEmptyValue(o) ==> r.calls == [Now(AbsenceAction)]
    ensures HasEmptyValue(o) && action().Throws? ==> r.result == Throws(action().error)
    ensures HasEmptyValue(o) && action().Returns? ==> r.result == Returns(EnsurePromise(action().value))
    ensures HasSyncValue(o) && !HasEmptyValue(o) ==> r == AsyncRun(Returns(Resolved(Undefined)), [])
    ensures IsPromise(o.slot) ==> r.result.Returns?
    ensures IsPromise(o.slot) && o.slot.settled.Rejected? ==> r == AsyncRun(Returns(o.slot.settled), [])
    ensures IsPromise(o.slot) && o.slot.settled.Resolved? && IsEmptyValue(o.slot.settled.value) ==>
              r == AsyncRun(Returns(Continue(action())), [Later(AbsenceAction)])
    ensures IsPromise(o.slot) && o.slot.settled.Resolved? && !IsEmptyValue(o.slot.settled.value) ==>
              r == AsyncRun(Returns(Resolved(Undefined)), [])
  {
    if HasEmptyValue(o) then
      var result :=
        match action()
        case Returns(s) => Returns(EnsurePromise(s))
        case Throws(e) => Throws(e);
      AsyncRun(result, [Now(AbsenceAction)])
    else
      match o.slot
      case Plain(_) => AsyncRun(Returns(Resolved(Undefined)), [])
      case Deferred(Rejected(e)) => AsyncRun(Returns(Rejected(e)), [])
      case Deferred(Resolved(v)) =>
        if IsEmptyValue(v) then
          AsyncRun(Returns(Continue(action())), [Later(AbsenceAction)])
        else
          AsyncRun(Returns(Resolved(Undefined)), [])
  }

  /** `either(actionOnPresence)`: starts the presence branch (as
      `ifPresent`) when called and returns the handle for `or`; on the
      plain path the action's exception is thrown out of `either`. */
  function Either(o: AsyncOptional, actionOnPresence: Value -> Outcome<Slot>): (r: AsyncRun<Outcome<EitherHandle>>)
    ensures r.calls == IfPresent(o, actionOnPresence).calls
    ensures r.result.Throws? <==> IfPresent(o, actionOnPresence).result.Throws?
    ensures r.result.Throws? ==> r.result.error == IfPresent(o, actionOnPresence).result.error
    ensures r.result.Returns? ==>
              r.result.value == EitherHandle(IfPresent(o, actionOnPresence).result.value, o)
  {
    var presence := IfPresent(o, actionOnPresence);
    match presence.result
    case Returns(p) => AsyncRun(Returns(EitherHandle(p, o)), presence.calls)
    case Throws(e) => AsyncRun(Throws(e), presence.calls)
  }

  /** Marks every invocation as happening in a continuation. */
  function Postponed(calls: seq<Invocation>): (r: seq<Invocation>)
    ensures |r| == |calls|
    ensures forall i :: 0 <= i < |calls| ==> r[i] == Later(calls[i].callback)
  {
    seq(|calls|, i requires 0 <= i < |calls| => Later(calls[i].callback))
  }

  /** The handle's `or(actionOnAbsence)`: waits for the presence branch; if
      that rejected, the absence action never runs and the rejection is
      passed on; otherwise the absence branch (as `ifAbsent`) runs in the
      continuation, so its exception becomes a rejection. */
  function Or(h: EitherHandle, actionOnAbsence: () -> Outcome<Slot>): (r: AsyncRun<Settled<Value>>)
    ensures h.presence.Rejected? ==> r == AsyncRun(h.presence, [])
    ensures h.presence.Resolved? ==> r.calls == Postponed(IfAbsent(h.receiver, actionOnAbsence).calls)
    ensures h.presence.Resolved? ==>
              r.result == (match IfAbsent(h.receiver, actionOnAbsence).result
                           case Returns(q) => q
                           case Throws(e) => Rejected(e))
    ensures h.presence.Resolved? && HasEmptyValue(h.receiver) ==>
              r.result == Continue(actionOnAbsence())
  {
    match h.presence
    case Rejected(e) => AsyncRun(Rejected(e), [])
    case Resolved(_) =>
      var absence := IfAbsent(h.receiver, actionOnAbsence);
      var p :=
        match absence.result
        case Returns(q) => q
        case Throws(e) => Rejected(e);
      AsyncRun(p, Postponed(absence.calls))
  }

  /** `eitherOr(actionOnPresence, actionOnAbsence?)`: runs the one action
      that matches the (resolved) value; an omitted absence action means
      nothing runs. On the plain path the action's exception is thrown,
      on the promise path it rejects. */
  function EitherOr(o: AsyncOptional, actionOnPresence: Value -> Outcome<Slot>,
                    actionOnAbsence: Option<() -> Outcome<Slot>>): (r: AsyncRun<Outcome<Settled<Value>>>)
    ensures HasEmptyValue(o) && actionOnAbsence.None? ==> r == AsyncRun(Returns(Resolved(Undefined)), [])
    ensures HasEmptyValue(o) && actionOnAbsence.Some? ==> r == IfAbsent(o, actionOnAbsence.value)
    ensures HasSyncValue(o) && !HasEmptyValue(o) ==> r == IfPresent(o, actionOnPresence)
    ensures IsPromise(o.slot) ==> r.result.Returns?
    ensures IsPromise(o.slot) && o.slot.settled.Rejected? ==> r == AsyncRun(Returns(o.slot.settled), [])
    ensures IsPromise(o.slot) && o.slot.settled.Resolved? && IsEmptyValue(o.slot.settled.value) ==>
              r == (if actionOnAbsence.Some? then IfAbsent(o, actionOnAbsence.value)
                    else AsyncRun(Returns(Resolved(Undefined)), []))
    ensures IsPromise(o.slot) && o.slot.settled.Resolved? && !IsEmptyValue(o.slot.settled.value) ==>
              r == IfPresent(o, actionOnPresence)
  {
    if HasEmptyValue(o) then
      match actionOnAbsence
      case Some(absent) =>
        var result :=
          match absent()
          case Returns(s) => Returns(EnsurePromise(s))
          case Throws(e) => Throws(e);
        AsyncRun(result, [Now(AbsenceAction)])
      case None => AsyncRun(Returns(Resolved(Undefined)), [])
    else
      match o.slot
      case Plain(v) =>
        var result :=
          match actionOnPresence(v)
          case Returns(s) => Returns(EnsurePromise(s))
          case Throws(e) => Throws(e);
        AsyncRun(result, [Now(PresenceAction(v))])
      case Deferred(Rejected(e)) => AsyncRun(Returns(Rejected(e)), [])
      case Deferred(Resolved(v)) =>
        if IsEmptyValue(v) then
          match actionOnAbsence
          case Some(absent) => AsyncRun(Returns(Continue(absent())), [Later(AbsenceAction)])
          case None => AsyncRun(Returns(Resolved(Undefined)), [])
        else
          AsyncRun(Returns(Continue(actionOnPresence(v))), [Later(PresenceAction(v))])
  }

  /** `hasValue()`: a promise of whether the (resolved) value is present;
      a rejected slot rejects it. */
  function HasValue(o: AsyncOptional): (p: Settled<bool>)
    ensures Get(o).Resolved? <==> p.Resolved?
    ensures p.Resolved? ==> p.value == !IsEmptyValue(Get(o).value)
    ensures p.Rejected? ==> p.error == Get(o).error
  {
    match EnsurePromise(o.slot)
    case Resolved(v) => Resolved(!IsEmptyValue(v))
    case Rejected(e) => Rejected(e)
  }

  /** `isEmpty()`: a promise of whether the (resolved) value is empty;
      a rejected slot rejects it. */
  function IsEmpty(o: AsyncOptional): (p: Settled<bool>)
    ensures Get(o).Resolved? <==> p.Resolved?
    ensures p.Resolved? ==> p.value == IsEmptyValue(Get(o).value)
    ensures p.Rejected? ==> p.error == Get(o).error
  {
    match EnsurePromise(o.slot)
    case Resolved(v) => Resolved(IsEmptyValue(v))
    case Rejected(e) => Rejected(e)
  }

  /** `get()`: the plain value as a resolved promise, or the held promise
      itself, so `null` and `undefined` come back as they were held. */
  function Get(o: AsyncOptional): (p: Settled<Value>)
    ensures HasSyncValue(o) ==> p == Resolved(o.slot.v)
    ensures !HasSyncValue(o) ==> p == o.slot.settled
  {
    EnsurePromise(o.slot)
  }
}
