/** Optional values and fallible results, used wherever the Rust code returns
    an `Option` or can fail (a panic in the original is an `Err` here). */
module Wrappers {

  datatype Option<+T> = None | Some(value: T)

  datatype Result<+T, +E> = Ok(value: T) | Err(error: E)
}
