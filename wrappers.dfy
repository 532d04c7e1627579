/** Optional values and results with an error text, the two shapes Go expresses
    with a nil pointer and with a (value, error) pair. */
module Wrappers {

  datatype Option<+T> = None | Some(value: T)

  datatype Result<+T> = Ok(value: T) | Err(error: string)
}
