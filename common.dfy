/** Small shared vocabulary: octets and the two failure-carrying wrappers
    the rest of the model returns instead of Go's `(value, error)` pairs. */
module Common {

  /** One octet, as Go's `byte`. */
  type byte = b: int | 0 <= b < 256

  datatype Option<+T> = None | Some(value: T)

  /** A Go `(value, error)` pair: exactly one side is meaningful. */
  datatype Result<+T, +E> = Ok(value: T) | Err(error: E)
}
