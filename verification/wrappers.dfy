/** Failure-carrying datatypes shared by every module of the model. */
module Wrappers {

  /** A value that may be absent; stands for Ruby's `nil`. */
  datatype Option<+T> = None | Some(value: T)

  /** The outcome of an operation that may raise. */
  datatype Result<+T, +E> = Ok(value: T) | Err(error: E)
}
