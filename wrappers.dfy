/** Option and Result values used for the sentinel returns and the exceptions of the modelled code. */
module Wrappers {

  datatype Option<+T> = None | Some(value: T)

  datatype Result<+R, +E> = Success(value: R) | Failure(error: E)

  /** The Python exceptions the modelled code can raise and does not catch. */
  datatype PyError = ValueError | KeyError | IndexError | AssertionError | AttributeError
}
