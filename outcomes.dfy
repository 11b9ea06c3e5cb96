/** Optional values and results of calls that may throw, shared by every module. */
module Outcomes {

  /** A value that may be absent (`null` or `undefined` in the application). */
  datatype Option<+T> = None | Some(value: T)

  /** The settled result of an awaited call: a value, or the error it was rejected with. */
  datatype Result<+T, +E> = Ok(value: T) | Err(error: E)
}
