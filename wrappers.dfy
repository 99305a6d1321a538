/** Option and result types shared by the model. */
module Wrappers {

  /** A value that may be absent (a missing request field, a query that finds no row). */
  datatype Option<+T> = None | Some(value: T)

  /** The reply of a handler that produces a value: the value, or the error it answers with. */
  datatype Result<+T, +E> = Success(value: T) | Failure(error: E)

  /** The reply of a handler that produces no value. */
  datatype Outcome<+E> = Pass | Fail(error: E)
}
