/** Failure-compatible wrappers shared by the whole model.

    `Option` stands for Rust's `Option`, `Result` for a computation that
    either produces a value or panics with a reason (the source's `assert!`,
    out-of-range slicing and integer underflow). */
module Results {

  datatype Option<+T> = None | Some(value: T)

  datatype Result<+T, +E> = Ok(value: T) | Err(error: E) {

    predicate IsFailure() {
      Err?
    }

    function PropagateFailure<U>(): Result<U, E>
      requires Err?
    {
      Err(error)
    }

    function Extract(): T
      requires Ok?
    {
      value
    }
  }
}
