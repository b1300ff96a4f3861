/** Failure-carrying values shared by every module of the model. */
module Wrappers {

  /** A value that may be absent: Go's `(value, found)` pairs and nil pointers. */
  datatype Option<+T> = None | Some(value: T)

  /** A value or the error that prevented it: Go's `(value, error)` pairs. */
  datatype Result<+T, +E> = Ok(value: T) | Err(error: E)

  /** True when `order` lists every element of `keys` exactly once: the order
      in which a Go `range` over a map with those keys happens to visit them. */
  ghost predicate IsEnumeration<K(!new)>(order: seq<K>, keys: set<K>)
  {
    && (forall i, j :: 0 <= i < j < |order| ==> order[i] != order[j])
    && (forall k :: k in keys <==> k in order)
  }
}
