/** Option and Result values used for JavaScript's `null`/`undefined`
    and for errors thrown at an access boundary. */
module Wrappers {

  datatype Option<+T> = None | Some(value: T)

  datatype Result<+R, +E> = Success(value: R) | Failure(error: E)
}
