/** Failure-carrying results and the exceptions the modelled code can raise. */
module Wrappers {

  datatype Option<+T> = None | Some(value: T)

  datatype Result<+R, +E> = Success(value: R) | Failure(error: E)

  /** The Java exceptions that the data plane raises. */
  datatype Error =
    | IllegalArgument      // java.lang.IllegalArgumentException
    | IndexOutOfBounds     // IndexOutOfBoundsException and ArrayIndexOutOfBoundsException
}
