/** The optional and fallible values the other modules share. */
module Wrappers {

  datatype Option<+T> = None | Some(value: T)

  /** `Panic` stands for a Go run-time panic: the handler that meets it produces no result. */
  datatype Result<+T> = Ok(value: T) | Panic {
    predicate IsFailure() {
      Panic?
    }

    function PropagateFailure<U>(): Result<U>
      requires Panic?
    {
      Panic
    }

    function Extract(): T
      requires Ok?
    {
      value
    }
  }
}
