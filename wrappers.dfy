/** Option and Result, used wherever the source returns null or signals an error. */
module Wrappers {

  /** A value that may be absent (the source's nullable references). */
  datatype Option<+T> = None | Some(value: T) {
    function GetOr(default: T): T {
      match this
      case Some(v) => v
      case None => default
    }
  }

  /** A value or an error (the source's exceptions and error returns). */
  datatype Result<+T, +E> = Ok(value: T) | Err(error: E)

  /** Every element, wrapped as present. */
  function Somes<T>(xs: seq<T>): (r: seq<Option<T>>)
    ensures |r| == |xs| && forall i :: 0 <= i < |xs| ==> r[i] == Some(xs[i])
  {
    if xs == [] then [] else [Some(xs[0])] + Somes(xs[1..])
  }
}
