/** Option and Result: the "maybe absent" and "value or thrown error" shapes the model uses
    wherever the source returns `undefined` or throws. */
module Wrappers {

  datatype Option<+T> = None | Some(value: T)

  datatype Result<+T, +E> = Ok(value: T) | Err(error: E)
}
