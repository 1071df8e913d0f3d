/** Option, Result and Outcome: the values that stand for Python's `None`
    and for a raised exception. */
module Wrappers {

  datatype Option<+T> = None | Some(value: T)

  datatype Result<+T, +E> = Success(value: T) | Failure(error: E)

  /** The result of a procedure that returns nothing or raises. */
  datatype Outcome<+E> = Pass | Fail(error: E)
}
