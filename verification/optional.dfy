/** Presence and failure wrappers used throughout the model. */
module Optional {

  /** A value that may be absent (Go's `idx == -1`, a nil reference, a failed lookup). */
  datatype Option<+T> = None | Some(value: T)

  /** A computation that either yields a value or is rejected with a reason. */
  datatype Result<+T, +E> = Ok(value: T) | Err(error: E)
}
