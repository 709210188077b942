/** Option and Result types shared by every module of the model. */
module Wrappers {
  datatype Option<T> = None | Some(value: T)
  {
    predicate IsSome() { Some? }
  }

  /** The outcome of an operation that the source can abort with an exception or assertion failure. */
  datatype Result<T> = Ok(value: T) | Err(error: string)
}
