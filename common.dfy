/** Small value types shared by the model of the end-to-end harness. */
module Common {

  /** Go's nil-able pointer or optional value. */
  datatype Option<+T> = None | Some(value: T)

  /** A value or the error a Go call returned beside it. */
  datatype Result<+T, +E> = Ok(value: T) | Err(error: E)

  /** One element of a Go `[]byte`. */
  newtype byte = x: int | 0 <= x < 256
}
