/** Optional values and lists without repetition. */
module Wrappers {

  datatype Option<+T> = None | Some(value: T) {

    function GetOr(default: T): T
    {
      match this
      case Some(v) => v
      case None => default
    }
  }

  ghost predicate NoDuplicates<X>(s: seq<X>)
  {
    forall i, j :: 0 <= i < j < |s| ==> s[i] != s[j]
  }
}
