/** Optional values and error-carrying results shared by every module.
    `Option` stands for a Python value that may be `None`; `Result` for a call
    that either returns or raises (the error carries the exception's text). */
module Wrappers {

  datatype Option<+T> = None | Some(value: T)

  datatype Result<+T> = Ok(value: T) | Err(error: string)
}
