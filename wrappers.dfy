/** Swift's Optional and Result, as plain datatypes. */
module Wrappers {

  /** Swift's `T?`: `nil` is `None`. */
  datatype Option<+T> = None | Some(value: T)

  /** Swift's `Result<T, E>`, the value a `Future` promise is resolved with. */
  datatype Result<+T, +E> = Success(value: T) | Failure(error: E)
}
