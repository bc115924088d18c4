/** Optional values and the outcome of an operation that can raise. */
module Outcomes {

  datatype Option<T> = None | Some(value: T)

  /** The exceptions the generators can raise: a dictionary lookup of a missing label. */
  datatype Error = KeyError(key: int)

  datatype Result<T> = Ok(value: T) | Err(error: Error)
}
