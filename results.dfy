/** Failure-carrying wrappers used across the model: an optional value, a
    value-or-error result, and a pass/fail outcome for operations that only
    change state. */
module Results {

  datatype Option<+T> = None | Some(value: T)

  datatype Result<+T, +E> = Success(value: T) | Failure(error: E)

  datatype Outcome<+E> = Pass | Fail(error: E)
}
