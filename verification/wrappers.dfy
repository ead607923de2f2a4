/** Small failure-compatible datatypes shared by the other modules. */
module Wrappers {

  /** Rust's `Option<T>`. */
  datatype Option<+T> = None | Some(value: T)

  /** Rust's `anyhow::Result<()>`: either `Ok(())` or an error whose
      `Display` text is `message`. */
  datatype Outcome = Ok | Err(message: string)
}
