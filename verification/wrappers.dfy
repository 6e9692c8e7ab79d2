/** Option and Result, the two failure-carrying shapes the model needs:
    `undefined` from a lookup becomes `None`, a rejected request becomes `Failure`. */
module Wrappers {

  datatype Option<+T> = None | Some(value: T)

  datatype Result<+R, +E> = Success(value: R) | Failure(error: E)
}
