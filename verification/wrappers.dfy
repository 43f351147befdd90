/** Optional values and results with an error: the model's stand-ins for
    boost::optional and for C++ exceptions. */
module Wrappers {

  datatype Option<+T> = None | Some(value: T)

  datatype Result<+T, +E> = Ok(value: T) | Err(error: E)
}
