/** Optional and failure-carrying values shared by the modules of this model. */
module Wrappers {

  /** A value that may be absent: JavaScript's `undefined`/`null`, or an unset reference. */
  datatype Option<+T> = None | Some(value: T)

  /** Either an accepted value or the reason it was refused. */
  datatype Result<+R, +E> = Success(value: R) | Failure(error: E)
}
