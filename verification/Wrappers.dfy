/** Optional values and results; every thrown error of the modelled program becomes `Err`. */
module Wrappers {

  datatype Option<+T> = None | Some(value: T)

  datatype Result<+T, +E> = Ok(value: T) | Err(error: E)

  /** JavaScript's Number.MAX_SAFE_INTEGER. */
  const MAX_SAFE: nat := 9007199254740991
}
