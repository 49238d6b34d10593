/** Optional values and results with an error, used for the absent fields of
    documents and for the error answers of the HTTP handlers. */
module Wrappers {

  datatype Option<+T> = None | Some(value: T)

  datatype Result<+R, +E> = Success(value: R) | Failure(error: E)
}
