/** Optional values and results with an error, as the planner's functions
    return "no value" (Python's None) and raise exceptions. */
module Wrappers {

  datatype Option<+T> = None | Some(value: T)

  datatype Result<+T, +E> = Ok(value: T) | Err(error: E)
}
