/** Optional values and results with an error, used by every other module. */
module Wrappers {

  /** A value that may be absent (JavaScript's `undefined`, `null` or `NaN`, depending on the use). */
  datatype Option<+T> = None | Some(value: T)

  /** A successful value or an error. */
  datatype Result<+T, +E> = Ok(value: T) | Err(error: E)
}
