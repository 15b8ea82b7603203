/** Small wrappers shared by the model: an optional value and the outcome of
    a step that may throw. */
module Options {

  /** A value that may be absent; stands in for JavaScript's `null`/`undefined`. */
  datatype Option<+T> = None | Some(value: T)

  /** Either the value a step produced or the error that aborted it. */
  datatype Result<+T, +E> = Success(value: T) | Failure(error: E)
}
