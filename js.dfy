/**
  The slice of JavaScript's value model that both containers rely on:
  plain values, the shared emptiness predicate (src/util is not part of
  this model, so it is defined here from its documentation), truthiness,
  property lookup, thrown errors and the record of which caller callbacks
  a container invoked.
 */
module Js {

  /** A plain JavaScript value. Functions, promises and container instances
      are never held here: callbacks are Dafny function values, promises are
      a separate tag (see AsyncOptionals.Slot) and a callback that returns a
      container says so through its own result type. */
  datatype Value =
    | Null
    | Undefined
    | Bool(b: bool)
    | Num(n: int)
    | Str(s: string)
    | Obj(props: map<string, Value>)

  /** `isEmpty` of src/util: only `null` and `undefined` are empty;
      `0`, `false` and `''` are not. */
  predicate IsEmptyValue(v: Value) {
    v.Null? || v.Undefined?
  }

  /** JavaScript truthiness of a value (NaN is not modelled). */
  predicate Truthy(v: Value) {
    match v
    case Null => false
    case Undefined => false
    case Bool(b) => b
    case Num(n) => n != 0
    case Str(s) => s != ""
    case Obj(_) => true
  }

  /** `value[key]` on a non-empty value: an own property of an object, and
      `undefined` for a missing key or a primitive. */
  function Property(v: Value, key: string): (r: Value)
    requires !IsEmptyValue(v)
    ensures v.Obj? && key in v.props ==> r == v.props[key]
    ensures !(v.Obj? && key in v.props) ==> r == Undefined
  {
    if v.Obj? && key in v.props then v.props[key] else Undefined
  }

  /** What a `throw` carries: the library's own `TypeError`, or whatever a
      caller's callback threw, passed on untouched. */
  datatype Error = TypeError | Raised(code: int)

  /** How a synchronous call ends: it returns, or it throws. */
  datatype Outcome<+T> = Returns(value: T) | Throws(error: Error)

  /** An argument that may be omitted. */
  datatype Option<+T> = None | Some(value: T)

  /** One invocation of a caller-supplied callback, with its argument. */
  datatype Callback =
    | Supplier
    | Mapper(arg: Value)
    | Predicate(arg: Value)
    | PresenceAction(arg: Value)
    | AbsenceAction
}
