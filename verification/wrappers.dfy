/** Optional values and results, used wherever the source returns `Option`, `Result`, `null` or a lookup miss. */
module Wrappers {
  datatype Option<T> = None | Some(value: T)

  /** A Rust `Result<T, &'static str>`: a value or an error message. */
  datatype Result<T> = Ok(value: T) | Err(error: string)
}
