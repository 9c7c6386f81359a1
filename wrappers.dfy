/** Option and Result datatypes. */
module Wrappers {

  /** An optional value; `None` stands for JavaScript's `undefined` where a property is absent. */
  datatype Option<+T> = None | Some(value: T)

  /** The value of a computation that may throw; `Failure` carries the exception's message. */
  datatype Result<+R, +E> = Success(value: R) | Failure(error: E)
}
