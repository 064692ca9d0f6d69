/**
 * Option and Result values shared by the modules of the model. `None` plays
 * the part of the source's `null`/`undefined`; `Failure` carries the error a
 * function would throw.
 */
module Wrappers {
  datatype Option<T> = None | Some(value: T) {
    function GetOr(default: T): T {
      if Some? then value else default
    }
  }

  datatype Result<T, E> = Success(value: T) | Failure(error: E)
}
