/** Option and Result, the two failure-carrying shapes the model uses. */
module Wrappers {

  /** `None` stands for a missing value. */
  datatype Option<+T> = None | Some(value: T)

  /** The outcome of a step that may throw: `Failure` carries what was thrown. */
  datatype Result<+T, +E> = Success(value: T) | Failure(error: E)
}
