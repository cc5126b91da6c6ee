/** Optional values, Go-style errors and (value, error) results. */
module Wrappers {

  datatype Option<+T> = None | Some(value: T)

  /** A Go `error`: a plain message (`fmt.Errorf("...")`, `errors.New`) or a
      message that wraps a cause (`fmt.Errorf("context: %w", cause)`). */
  datatype Error =
    | Failure(message: string)
    | Wrapped(context: string, cause: Error)

  /** The `(T, error)` pair of a Go call: exactly one side is meaningful. */
  datatype Result<+T> = Ok(value: T) | Err(error: Error)
}
