/** Optional values and pass/fail outcomes, standing for `null`/`undefined` and thrown errors. */
module Wrappers {

  /** A value that may be absent (`null` or `undefined` in the source). */
  datatype Option<+T> = None | Some(value: T)

  /** The outcome of an operation that may throw: `Fail` carries the error message. */
  datatype Outcome<+E> = Pass | Fail(error: E)
}
