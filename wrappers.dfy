// Option and Result values shared by every module of the model: Go's
// (value, ok) and (value, error) pairs and Python's exceptions become these.
module Wrappers {

  datatype Option<T> = None | Some(value: T)

  datatype Result<T, E> = Ok(value: T) | Err(error: E)
}
