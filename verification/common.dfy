/** Shared value types: optional values, Python exceptions as data, and JSON values.

    Every operation of the system that can raise returns a `Result`; the `Error`
    constructor names the Python exception class the source raises or lets escape,
    and its message is what `str(error)` yields for it.
 */
module Common {

  datatype Option<+T> = None | Some(value: T)

  /** The exception classes the modelled code raises, catches or lets escape. */
  datatype Error =
    | ValueError(msg: string)
    | RuntimeError(msg: string)
    | ValidationError(msg: string)
    | KeyError(msg: string)
    | TypeError(msg: string)
    | GenericError(msg: string)   // a plain `Exception`, or one raised by a collaborator

  /** Either a value or a raised exception. */
  datatype Result<+T> = Ok(value: T) | Raise(error: Error) {

    predicate IsFailure() {
      Raise?
    }

    function PropagateFailure<U>(): Result<U>
      requires Raise?
    {
      Raise(error)
    }

    function Extract(): T
      requires Ok?
    {
      value
    }
  }

  /** A decoded JSON value, as Python's `json` module produces it. */
  datatype Json =
    | JNull
    | JBool(b: bool)
    | JInt(i: int)
    | JFloat(r: real)
    | JStr(s: string)
    | JArray(items: seq<Json>)
    | JObject(fields: map<string, Json>)

  /** Python truthiness of a decoded JSON value (`if value:`). */
  predicate Truthy(j: Json) {
    match j
    case JNull => false
    case JBool(b) => b
    case JInt(i) => i != 0
    case JFloat(r) => r != 0.0
    case JStr(s) => |s| > 0
    case JArray(items) => |items| > 0
    case JObject(fields) => |fields| > 0
  }
}
