/** Failure-compatible wrappers used by the codec model. */
module Wrappers {

  /** A value that may be absent; `None` stands for JavaScript's null/undefined. */
  datatype Option<+T> = None | Some(value: T) {
    predicate IsFailure() { None? }

    function PropagateFailure<U>(): Option<U>
      requires None?
    {
      None
    }

    function Extract(): T
      requires Some?
    {
      value
    }
  }

  /** The outcome of a call that may throw; `Failure` carries the error text. */
  datatype Result<+T> = Success(value: T) | Failure(error: string)
}
