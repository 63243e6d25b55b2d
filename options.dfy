/** An optional value: `None` stands for JavaScript's `undefined`. */
module Options {
  datatype Option<+T> = None | Some(value: T)

  /** A value, or the error a JavaScript function would have thrown. */
  datatype Result<+T, +E> = Ok(value: T) | Err(error: E)
}
