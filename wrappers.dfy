/** Option and Result, the two failure-carrying shapes the model uses. */
module Wrappers {

  /** An optional value: `None` stands for a key that is absent or `undefined`. */
  datatype Option<+T> = None | Some(value: T)

  /** A value or an error, for the error returns and thrown errors of the source. */
  datatype Result<+R, +E> = Success(value: R) | Failure(error: E)
}
