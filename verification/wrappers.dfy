/** Option and Result carriers used for the plugin's error paths. */
module Wrappers {

  datatype Option<+T> = None | Some(value: T)

  /** Either a value or the reason the plugin refused the request. */
  datatype Result<+T, +E> = Ok(value: T) | Err(error: E) {
    predicate IsFailure() {
      Err?
    }

    function PropagateFailure<U>(): Result<U, E>
      requires Err?
    {
      Err(error)
    }

    function Extract(): T
      requires Ok?
    {
      value
    }
  }
}
