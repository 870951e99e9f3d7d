/** Small helper datatypes shared by every module of the model. */
module Wrappers {

  /** An optional value: `undefined`/absent is `None`. */
  datatype Option<+T> = None | Some(value: T) {

    /** The value, or `default` when absent (the `x ?? default` and `= default` idioms). */
    function GetOr(default: T): T {
      match this
      case Some(v) => v
      case None => default
    }
  }

  /** How a promise settles: fulfilled or rejected. */
  datatype Outcome = Resolved | Rejected

  /** At most the first element of `s`: what a search that stops at its first hit can return. */
  function Take1<T>(s: seq<T>): (r: seq<T>)
    ensures |r| <= 1
    ensures r <= s
    ensures |r| == 1 <==> s != []
  {
    if s == [] then [] else [s[0]]
  }

  /** `s` holds no element twice: the elements of a JavaScript `Set`. */
  predicate NoDuplicates<T(==)>(s: seq<T>) {
    forall i, j :: 0 <= i < j < |s| ==> s[i] != s[j]
  }
}
