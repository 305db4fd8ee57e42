/** Result types shared by every component. */
module Wrappers {

  /** A value that may be missing, where the program uses None. */
  datatype Option<+T> = None | Some(value: T)

  /** The outcome of a call that may raise. */
  datatype Result<+T, +E> = Success(value: T) | Failure(error: E)

  function SetOf<T>(s: seq<T>): set<T> { set x | x in s }
}
