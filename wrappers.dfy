/** Option and Result, used for values that JavaScript leaves `undefined`
    and for collaborator calls that may throw. */
module Wrappers {

  datatype Option<+T> = None | Some(value: T)

  /** The outcome of a call that either returns a value or throws an error
      carrying a message. */
  datatype Result<+T> = Success(value: T) | Failure(error: string)
}
