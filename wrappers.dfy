/** Optional values and results, used where the auditor works with Python's
    `None` or with an operation that can fail. */
module Wrappers {

  datatype Option<+T> = None | Some(value: T)

  datatype Result<+T, +E> = Ok(value: T) | Err(error: E)
}
