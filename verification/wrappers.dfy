/** Optional values and results with an error. */
module Wrappers {

  datatype Option<+T> = None | Some(value: T)

  datatype Result<+T, +P> = Ok(value: T) | Err(problem: P)
}
