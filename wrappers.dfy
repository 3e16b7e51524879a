/** Small failure-carrying datatypes shared by the modules of the model. */
module Wrappers {

  /** A value that may be absent: a `null`/`undefined` in the app. */
  datatype Option<+T> = None | Some(value: T)

  /** The outcome of a call that either returns a value or throws an `Error`
      carrying a message. */
  datatype Fallible<+T> = Ok(value: T) | Thrown(message: string)
}
