/** Optional values (JavaScript's `undefined` versus a present value) and the
    outcome of a call that can throw. */
module Wrappers {

  datatype Option<+T> = None | Some(value: T)

  datatype Result<+T, +E> = Ok(value: T) | Err(error: E)
}
