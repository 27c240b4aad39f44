/** Optional values and the outcome of operations that may raise. */
module Wrappers {

  datatype Option<T> = None | Some(value: T)

  /** `Err` stands for any exception the Python code would raise there. */
  datatype Result<T> = Ok(value: T) | Err
}
