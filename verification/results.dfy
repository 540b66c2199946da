/**
 Optional values, and outcomes that are either a value or the error an
 evaluation raised; `Result` supports `:-` so that a raised error propagates
 through the pipeline as a JavaScript throw would.
 */
module Results {

  datatype Option<+T> = None | Some(value: T)

  /** The outcome of an evaluation that may raise: a value, or the error it raised. */
  datatype Result<+T, +E> = Ok(value: T) | Err(error: E) {

    predicate IsFailure() {
      Err?
    }

    function PropagateFailure<U>(): Result<U, E>
      requires Err?
    {
      Err(error)
    }

    function Extract(): T
      requires Ok?
    {
      value
    }
  }
}
