/** The Option and Result types used throughout the model. */
module Wrappers {
  /** A value that may be absent; for a table cell, None stands for a missing (NaN) value. */
  datatype Option<+T> = None | Some(value: T) {
    function GetOr(default: T): T {
      match this
      case Some(v) => v
      case None => default
    }
  }

  /** Either a value or the reason why there is none. */
  datatype Result<+R, +E> = Success(value: R) | Failure(error: E)
}

/** Small generic sequence helpers. */
module Seqs {
  import opened Wrappers

  /** Index of the first element whose key equals `k`, as a pandas boolean selection followed by `[0]`. */
  function FirstIndex<T>(s: seq<T>, key: T -> string, k: string): (r: Option<nat>)
    ensures r.Some? ==> r.value < |s| && key(s[r.value]) == k
    ensures r.Some? ==> forall q :: 0 <= q < r.value ==> key(s[q]) != k
    ensures r.None? <==> forall q :: 0 <= q < |s| ==> key(s[q]) != k
  {
    if |s| == 0 then None
    else if key(s[0]) == k then Some(0)
    else
      match FirstIndex(s[1..], key, k)
      case None => None
      case Some(j) => Some(j + 1)
  }
}
