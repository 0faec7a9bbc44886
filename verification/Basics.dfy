/** What several parts share: optional values, and words for common properties of sequences. */
module Basics {

  datatype Option<+T> = None | Some(value: T) {
    function UnwrapOr(default: T): T {
      match this case None => default case Some(v) => v
    }
  }

  predicate Distinct<T(==)>(q: seq<T>) {
    forall i, j | 0 <= i < j < |q| :: q[i] != q[j]
  }

  predicate Sorted(q: seq<nat>) {
    forall i, j | 0 <= i < j < |q| :: q[i] <= q[j]
  }

  function RemoveAt<T>(q: seq<T>, k: nat): seq<T>
    requires k < |q|
  {
    q[..k] + q[k + 1..]
  }
}
