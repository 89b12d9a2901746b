/** Option and Result, the two failure-aware datatypes the model needs. */
module Wrappers {

  /** A value that may be absent: pandas' None / NaN cell. */
  datatype Option<+T> = None | Some(value: T)

  /** The outcome of a step that can fail with an error message. */
  datatype Result<+R> = Success(value: R) | Failure(error: string)
}
