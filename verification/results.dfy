/** Failure-carrying wrappers: `Option` for "maybe absent", `Result` for a value
    or the exception the Python code would raise instead. */
module Results {

  datatype Option<+T> = None | Some(value: T)

  datatype Result<+T, +E> = Ok(value: T) | Err(error: E)
}
