/** The Option and Result types used across the model. */
module Wrappers {

  /** An optional value: Go's `(value, found)` pair, with `None` for `(nil, false)`. */
  datatype Option<+T> = None | Some(value: T)

  /** Either a value or an error; stands for a constructor that panics on bad input. */
  datatype Result<+R, +E> = Success(value: R) | Failure(error: E)
}
