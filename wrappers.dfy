/** Option and Result values shared by every module of the model. */
module Wrappers {

  /** An absent-or-present value: JavaScript's `null`/`undefined`, Go's `nil`. */
  datatype Option<+T> = None | Some(value: T)

  /** The value of an operation that can fail: Go's `(value, error)` pair. */
  datatype Result<+T, +E> = Ok(value: T) | Err(error: E)
}
