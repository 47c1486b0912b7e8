/**
 * The JavaScript values the awaitable send wrapper handles without looking inside them:
 * event payloads, values thrown by an observer, and the identifiers and discriminators
 * of a `waitUntil` option.
 */
module JsValues {

  /**
   * A JavaScript value, as far as the wrapper tells values apart. Objects carry an
   * identity `ref`, so two distinct objects are distinct values even when their
   * contents agree.
   */
  datatype Data =
    | Undefined
    | Null
    | Bool(b: bool)
    | Number(n: int)
    | Text(s: string)
    | ErrorInstance(ref: nat, message: string)
    | Object(ref: nat)

  /** JavaScript truthiness: `undefined`, `null`, `false`, `0` and `""` are falsy. */
  predicate Truthy(d: Data)
  {
    match d
    case Undefined => false
    case Null => false
    case Bool(b) => b
    case Number(n) => n != 0
    case Text(s) => s != ""
    case ErrorInstance(_, _) => true
    case Object(_) => true
  }

  /**
   * What a Promise is rejected with, or an exception carries: either a value exactly as
   * it was produced, or a freshly constructed `new Error(message)`.
   */
  datatype ErrorValue =
    | Raised(value: Data)
    | NewError(message: Data)
}
