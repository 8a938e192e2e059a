/** The two shapes the model borrows from Python's calling conventions: an
    argument that may be left as `None`, and a call that either returns or
    raises. */
module Wrappers {

  /** An optional argument: `None` is Python's `None` default. */
  datatype Option<T> = None | Some(value: T)

  /** A call that returns `value` or raises `error`. */
  datatype Result<R, E> = Success(value: R) | Failure(error: E)
}
