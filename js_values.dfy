/** The slice of JavaScript's value domain that the calculators look at:
    the values a destructured parameter can hold, the `typeof` operator
    that their guards use, and the outcome of a call that may throw. */
module JsValues {

  /** A JavaScript value, classified the way `typeof` classifies it.
      Numbers are modelled as exact reals: IEEE-754 rounding, the
      infinities and NaN are not represented. A property that is absent
      from the argument object destructures to `Undefined`. */
  datatype JsValue =
    | Num(n: real)
    | BigInt(i: int)
    | Str(s: string)
    | Bool(b: bool)
    | Undefined
    | Null
    | Symbol
    | Function
    | Object

  /** JavaScript's `typeof` operator, including its historical quirk
      that `typeof null` is "object". Only numbers get "number". */
  function TypeOf(x: JsValue): (tag: string)
    ensures tag == "number" <==> x.Num?
    ensures x.Null? ==> tag == "object"
  {
    match x
    case Num(_) => "number"
    case BigInt(_) => "bigint"
    case Str(_) => "string"
    case Bool(_) => "boolean"
    case Undefined => "undefined"
    case Null => "object"
    case Symbol => "symbol"
    case Function => "function"
    case Object => "object"
  }

  /** The completion of a call: a returned value, or an `Error` thrown
      with the given message. */
  datatype Result<T> = Success(value: T) | Failure(error: string)
}
