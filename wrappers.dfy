/** Option and Result, used for values the source may leave undefined and for
    the errors its asynchronous calls reject with. */
module Wrappers {

  datatype Option<+T> = None | Some(value: T)

  datatype Result<+T, +E> = Ok(value: T) | Err(error: E)
}
