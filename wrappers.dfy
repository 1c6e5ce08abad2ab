/** Optional values and results, standing for Python's `X | None` and for raised errors. */
module Wrappers {

  /** `None` is Python's `None`; `Some(v)` a present value. */
  datatype Option<+T> = None | Some(value: T)

  /** The outcome of an operation that either returns a value or fails with an error. */
  datatype Result<+R, +E> = Success(value: R) | Failure(error: E)
}
