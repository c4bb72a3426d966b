/** Result type for operations that can fail the way a Python lookup does. */
module Wrappers {

  datatype Result<+T, +E> = Ok(value: T) | Err(error: E)
}
