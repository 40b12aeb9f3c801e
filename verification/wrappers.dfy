/** Option and Result, used for nullable state and for outcomes of remote calls. */
module Wrappers {

  /** A value that may be absent (`null` / `undefined` / `None` in the source). */
  datatype Option<+T> = None | Some(value: T)

  /** The outcome of a remote call: it resolves with a value or rejects with an error. */
  datatype Result<+R, +E> = Success(value: R) | Failure(error: E)
}
