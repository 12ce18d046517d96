/** Optional values and results, standing for Python's `None` and for raised exceptions. */
module Wrappers {

  /** `None` or a present value, as Python's `Optional[T]`. */
  datatype Option<+T> = None | Some(value: T)

  /** The value of a call that either returns normally or raises. */
  datatype Result<+T, +E> = Ok(value: T) | Err(error: E)

  /** The outcome of a call that returns nothing or raises. */
  datatype Outcome<+E> = Pass | Fail(error: E)
}
