/** Failure-compatible result types shared by every module of the model. */
module Wrappers {

  /** A value that may be absent: Python's `X | None`. */
  datatype Option<+T> = None | Some(value: T)

  /** The outcome of an operation that the source ends by raising an exception. */
  datatype Result<+T, +E> = Ok(value: T) | Err(error: E)
  {
    predicate IsFailure() { Err? }

    function PropagateFailure<U>(): Result<U, E>
      requires Err?
    {
      Err(error)
    }

    function Extract(): T
      requires Ok?
    {
      value
    }
  }
}
