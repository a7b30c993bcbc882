/** Optional values, results, and the outcome of a host entry point.

    Every `.unwrap()`, `.expect()` and `panic!` on the host side ends the
    guest's run; the model folds all of them into the single outcome
    `Abort`. Nothing is promised about the state after an `Abort`. */
module Outcomes {

  datatype Option<+T> = None | Some(value: T)

  /** A value or an error, as the native backend reports it. */
  datatype Result<+T, +E> = Success(value: T) | Failure(error: E)

  /** What a host entry point hands back to the guest: a value, or a panic. */
  datatype Outcome<+T> = Ok(value: T) | Abort {

    predicate IsFailure() {
      Abort?
    }

    function PropagateFailure<U>(): Outcome<U>
      requires Abort?
    {
      Abort
    }

    function Extract(): T
      requires Ok?
    {
      value
    }
  }
}
