/** Outcomes of operations that can fail: a service call, a parse, a lookup. */
module Wrappers {

  datatype Option<+T> = None | Some(value: T)

  /** `Failure` carries the text of the exception the source would catch or raise. */
  datatype Result<+T> = Success(value: T) | Failure(error: string)
}
