/** Option and Result: the nullable values and the value-or-failure replies of the backend. */
module Wrappers {

  /** `null`/`undefined` in the storefront become `None`. */
  datatype Option<+T> = None | Some(value: T) {
    function GetOr(default: T): T {
      match this
      case Some(v) => v
      case None => default
    }
  }

  /** `n` absent values: the holes of a sparse JavaScript array, or a run of `null` cells. */
  function Nones<T>(n: nat): (r: seq<Option<T>>)
    ensures |r| == n && forall i :: 0 <= i < n ==> r[i] == None
  {
    if n == 0 then [] else Nones(n - 1) + [None]
  }

  /** The reply of a backend call: a value, or a failure the caller sees thrown or returned. */
  datatype Result<+R, +E> = Success(value: R) | Failure(error: E)
}
