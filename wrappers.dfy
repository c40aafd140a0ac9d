/** Option and Result, with the one thing JavaScript adds: what a failed
    operation throws. */
module Wrappers {

  datatype Option<+T> = None | Some(value: T)

  datatype Result<+R, +E> = Success(value: R) | Failure(error: E)

  /** What the extension's functions throw: a plain string (`throw "…"`), or a
      TypeError raised by the runtime when a method is called on a value
      that does not have it. */
  datatype Thrown = ThrownString(text: string) | TypeError
}
