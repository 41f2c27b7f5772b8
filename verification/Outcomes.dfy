/** The two result types every module shares. */
module Outcomes {

  datatype Option<+T> = None | Some(value: T)

  /** The result of a call that either commits with a value or raises an error.
      An error of a store transaction means that the transaction was rolled back. */
  datatype Outcome<+T, +E> = Ok(value: T) | Err(error: E) {

    predicate IsFailure() {
      Err?
    }

    function PropagateFailure<U>(): Outcome<U, E>
      requires Err?
    {
      Err(error)
    }

    function Extract(): T
      requires Ok?
    {
      value
    }
  }
}
