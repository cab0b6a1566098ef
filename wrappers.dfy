/** Rust's `Option` and the `io::Result` shape of the calls this crate makes into the `inotify` crate. */
module Wrappers {

  datatype Option<+T> = None | Some(value: T)

  /** The outcome of a call into the operating system. The error value is never
      inspected by the crate (it only asks `is_err()` or matches `Ok`), so it carries nothing. */
  datatype IoResult<+T> = Ok(value: T) | IoError
}
