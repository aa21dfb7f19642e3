/** Optional values and fallible results, used for the nullable fields of the
    export records and for the pipeline's fatal error. */
module Wrappers {

  datatype Option<+T> = None | Some(value: T)

  datatype Result<+R, +E> = Success(value: R) | Failure(error: E)
}
