/** Option and Result values used in place of Python's None and exceptions,
    and Python's `min` on two counts. */
module Wrappers {

  datatype Option<+T> = None | Some(value: T)

  datatype Result<+R, +E> = Success(value: R) | Failure(error: E)

  function Min(a: nat, b: nat): nat {
    if a <= b then a else b
  }
}
