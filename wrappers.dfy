/** Option and Result, and a model of Go `error` values. */
module Wrappers {

  datatype Option<+T> = None | Some(value: T)

  datatype Result<+T, +E> = Ok(value: T) | Err(error: E)

  /** A Go `error`: either an error produced by a collaborator (identified by
      its text), or the value of `fmt.Errorf(prefix + "%w", inner)`, which
      keeps `inner` reachable through `errors.Unwrap`. */
  datatype Error = Cause(text: string) | Wrapped(prefix: string, inner: Error)
}
