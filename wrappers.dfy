/** Option and Result, the two failure-carrying wrappers the model uses:
    Option for Swift optionals, Result for Swift `throws`. */
module Wrappers {

  datatype Option<+T> = None | Some(value: T)

  datatype Result<+T, +E> = Success(value: T) | Failure(error: E)
}
