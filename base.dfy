/** Values shared by every package of the server: Go's `error`, optional values,
    the two-valued `(value, error)` returns, and bytes. */
module Base {

  /** A Go `error`: only its message is observable. */
  datatype Error = Error(message: string)

  datatype Option<+T> = None | Some(value: T)

  /** A Go function returning `(value, err)`: `Failure(e)` stands for a non-nil `err`
      (the value is then never used), `Success(v)` for `(v, nil)`. */
  datatype Result<+R> = Success(value: R) | Failure(error: Error)

  /** A Go `byte`. */
  newtype byte = x: int | 0 <= x < 256
}
