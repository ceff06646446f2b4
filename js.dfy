/** Values as the TypeScript sources see them: optional values, results of
    calls that may throw, JavaScript truthiness of strings and the `||`
    fallback operator. */
module Js {

  datatype Option<+T> = None | Some(value: T)

  /** The outcome of a call that may throw: a value, or the thrown value. */
  datatype Result<+T, +E> = Success(value: T) | Failure(error: E)

  /** What a `catch` clause receives: an `Error` object (with its message),
      or some other thrown value. */
  datatype Thrown = ErrorObject(message: string) | OtherValue

  /** `e instanceof Error ? e.message : fallback` */
  function MessageOr(e: Thrown, fallback: string): (m: string)
    ensures e.ErrorObject? ==> m == e.message
    ensures e.OtherValue? ==> m == fallback
  {
    match e
    case ErrorObject(msg) => msg
    case OtherValue => fallback
  }

  /** A string, `undefined` or `null` is truthy exactly when it is a
      non-empty string. */
  predicate Truthy(s: Option<string>)
  {
    s.Some? && s.value != ""
  }

  /** `a || b` on two possibly missing strings. */
  function Or(a: Option<string>, b: Option<string>): (r: Option<string>)
    ensures Truthy(a) ==> r == a
    ensures !Truthy(a) ==> r == b
    ensures Truthy(r) <==> Truthy(a) || Truthy(b)
  {
    if Truthy(a) then a else b
  }

  /** `a || fallback` where the fallback is a string literal. */
  function OrElse(a: Option<string>, fallback: string): (r: string)
    ensures Truthy(a) ==> r == a.value
    ensures !Truthy(a) ==> r == fallback
    ensures fallback != "" ==> r != ""
  {
    if Truthy(a) then a.value else fallback
  }
}
