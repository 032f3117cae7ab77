/** Option and Result, the failure-carrying values the rest of the model returns. */
module Wrappers {

  /** `None` stands for Python's `None` argument or a missing value. */
  datatype Option<+T> = None | Some(value: T)

  /** The normal return of a Python call, or the exception it raises. */
  datatype Result<+R, +E> = Success(value: R) | Failure(error: E)
}
