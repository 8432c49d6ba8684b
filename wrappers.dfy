/** Optional values and results with an error message, used for the failure paths of the source. */
module Wrappers {

  datatype Option<T> = None | Some(value: T)
  {
    predicate IsSome() { this.Some? }
  }

  datatype Result<T> = Ok(value: T) | Err(message: string)
}
