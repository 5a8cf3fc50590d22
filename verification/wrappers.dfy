/** Optional values, success-or-error results, and the three outcomes of a call to
    the server's single-resource lookups. */
module Wrappers {

  datatype Option<+T> = None | Some(value: T)

  datatype Result<+T, +E> = Ok(value: T) | Err(error: E)

  /** What a single-resource lookup such as `get_project` produces: a record, `None`
      (the resource does not exist), or an exception carrying a message. */
  datatype Lookup<+T> = Fetched(value: T) | Missing | Raised(message: string)
}
