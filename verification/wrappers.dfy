/** Optional values and fallible results, used for the decoder oracle and for
    the one way a snapshot can fail to be produced. */
module Wrappers {

  datatype Option<+T> = None | Some(value: T)

  datatype Result<+R, +E> = Success(value: R) | Failure(error: E)
}
