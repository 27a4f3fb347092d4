/** Failure-carrying datatypes used by every other module of the model. */
module Wrappers {

  /** A value that may be absent; `None` stands where Java has `null` or `Optional.empty()`. */
  datatype Option<+T> = None | Some(value: T)

  /** The outcome of one stage of an asynchronous pipeline: a value, or the failure it completed with. */
  datatype Result<+R, +E> = Success(value: R) | Failure(error: E)
}
