/**
  The small slice of JavaScript's runtime that the rest of the model needs:
  thrown exceptions, the `typeof … === 'number'` and `instanceof` tests the
  validators perform, and optional (possibly `undefined`) arguments.
 */
module Js {

  /** Optional values: an argument or field that may be `undefined`/`null`. */
  datatype Option<+T> = None | Some(value: T) {
    function GetOr(default: T): T {
      match this
      case Some(v) => v
      case None => default
    }
  }

  /** The exception classes the code throws, with their messages. */
  datatype Exception =
    | TypeError(message: string)
    | RangeError(message: string)
    | Error(message: string)
    /** A failure reported by the `Assert.js` helpers, whose class and message are not part of this model. */
    | AssertionFailure(parameter: string)

  /** Either a normal return or a thrown exception. */
  datatype Result<+T> = Ok(value: T) | Throw(exception: Exception) {
    predicate IsFailure() { Throw? }

    function PropagateFailure<U>(): Result<U>
      requires Throw?
    {
      Throw(exception)
    }

    function Extract(): T
      requires Ok?
    {
      value
    }
  }

  /** A JavaScript value as seen by a `typeof x === 'number'` test. */
  datatype Scalar = Undefined | Number(n: real) | NotNumber

  /** A JavaScript value as seen by an `x instanceof C` test. */
  datatype Typed<+T> = Instance(value: T) | NotInstance

  /** The decimal digits of a natural number, as `String(n)` writes it. */
  function NatText(n: nat): string
    decreases n
  {
    if n < 10 then ["0123456789"[n]] else NatText(n / 10) + ["0123456789"[n % 10]]
  }

  /** `String(n)` for an integer `n`. */
  function IntText(n: int): string {
    if n < 0 then "-" + NatText(-n) else NatText(n)
  }

  /** `${xs}` for an array of integers: the elements' texts joined by commas, and "" for an empty array. */
  function IntsText(xs: seq<int>): string
    decreases |xs|
  {
    if |xs| == 0 then ""
    else if |xs| == 1 then IntText(xs[0])
    else IntText(xs[0]) + "," + IntsText(xs[1..])
  }

  /** JavaScript truthiness of a number held in a nullable variable: `null`, `undefined` and 0 are falsy. */
  predicate Truthy(x: Option<real>) {
    x.Some? && x.value != 0.0
  }
}
