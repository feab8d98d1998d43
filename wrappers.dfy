/** Option and Result, used for the values the client may fail to produce
    (a URL that does not parse, a raised exception). */
module Wrappers {

  datatype Option<+T> = None | Some(value: T)

  datatype Result<+R, +E> = Success(value: R) | Failure(error: E)
}
