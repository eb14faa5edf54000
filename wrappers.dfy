/** Option and Result, the two shapes the modelled Rust code uses for optional values and fallible results. */
module Wrappers {

  datatype Option<+T> = None | Some(value: T)

  datatype Result<+T, +E> = Ok(value: T) | Err(error: E)
}
