/** Optional values and success-or-error results, used for nullable columns,
    absent form fields and the error paths of movement submission. */
module Wrappers {

  datatype Option<+T> = None | Some(value: T)

  datatype Result<+R, +E> = Success(value: R) | Failure(error: E)
}
