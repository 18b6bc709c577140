/** Option and Result: the failure-carrying values the model uses where the
    program raises an exception, calls sys.exit() or leaves a name unbound. */
module Wrappers {

  datatype Option<+T> = None | Some(value: T)

  datatype Result<+T, +E> = Ok(value: T) | Err(error: E)
}
