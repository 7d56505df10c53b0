/** Optional values, and JavaScript's read of an array element. */
module Wrappers {

  /** A value that may be absent; None stands for JavaScript's `undefined`. */
  datatype Option<+T> = None | Some(value: T)

  /** `a[k]` on a JavaScript array: the element when `k` is in range, `undefined` past the end. */
  function At<T>(a: seq<T>, k: nat): Option<T>
  {
    if k < |a| then Some(a[k]) else None
  }
}
