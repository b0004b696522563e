/** Small value wrappers used throughout the model in place of `undefined`
    and of thrown exceptions. */
module Wrappers {
  /** An optional value: `None` stands for `undefined` (or `null` where the
      source treats both alike). */
  datatype Option<+T> = None | Some(value: T)
  {
    function GetOr(default: T): T
    {
      if Some? then value else default
    }
  }

  /** The result of an operation that either returns a value or throws. */
  datatype Result<+T, +E> = Ok(value: T) | Err(error: E)
  {
    predicate IsFailure() { Err? }

    function PropagateFailure<U>(): Result<U, E>
      requires Err?
    {
      Err(error)
    }

    function Extract(): T
      requires Ok?
    {
      value
    }
  }

  /** The result of an operation that returns nothing or throws. */
  datatype Outcome<+E> = Pass | Fail(error: E)
}
