/** Option and Result values used wherever the source returns None/nil or an error. */
module Wrappers {
  datatype Option<T> = None | Some(value: T)

  datatype Result<T> = Ok(value: T) | Err(error: string)
  {
    predicate IsOk() { this.Ok? }
  }
}
