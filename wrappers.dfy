/** Failure-compatible wrappers used across the model: `Option` stands for
    Python's `X | None`, `Result` for a call that either returns or raises. */
module Wrappers {

  datatype Option<+T> = None | Some(value: T)

  datatype Result<+R, +E> = Success(value: R) | Failure(error: E)
}
