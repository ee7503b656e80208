/**
 * Values shared by the tracing and shutdown models: an optional value and the
 * settled outcome of a wrapped computation (the effect runtime's `Either`).
 */
module Effects {

  /** An optional value: a capability slot that may be absent, an extraction that may yield nothing. */
  datatype Option<+T> = None | Some(value: T)

  /**
   * The failure value of a traced computation: a JavaScript `Error`. The tracing
   * layer reads only `message`; `name` is carried so that "re-raised unchanged"
   * means the whole value and not just its message.
   */
  datatype Error = Error(name: string, message: string)

  /** How a computation settled: with a result or with a typed failure. */
  datatype Outcome<+A> = Success(value: A) | Failure(error: Error)
}
