/** Optional values and results with an error, for the exchange's absent
    answers and for the exceptions of the trading script. */
module Wrappers {

  datatype Option<+T> = None | Some(value: T)

  datatype Result<+T, +E> = Ok(value: T) | Err(error: E)
}
