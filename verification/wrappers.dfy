/** Failure-compatible wrappers used throughout the model: an optional value
    (a nullable pointer or an absent file) and a value-or-error result (a C++
    function that returns normally or throws). */
module Wrappers {

  datatype Option<+T> = None | Some(value: T)

  datatype Result<+R, +E> = Success(value: R) | Failure(error: E)
}
