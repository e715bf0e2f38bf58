/** Optional values and results, the shapes the popup's JavaScript expresses with
    `undefined`/`null` and with thrown errors. */
module Wrappers {

  datatype Option<+T> = None | Some(value: T)

  datatype Result<+R, +E> = Success(value: R) | Failure(error: E)
}
