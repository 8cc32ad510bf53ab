/** Option and Result, the two failure-carrying shapes the model uses. */
module Wrappers {

  datatype Option<+T> = None | Some(value: T)

  /** A step that either yields a value or stops with an error (a Ruby `raise`,
      or a before-filter that renders and so halts the chain). */
  datatype Result<+T, +E> = Success(value: T) | Failure(error: E)
}
