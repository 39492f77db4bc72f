/** Optional values: a C out-pointer that may be null, a Python `None`. */
module Wrappers {

  datatype Option<T> = None | Some(value: T)

  /** What a caller sees through an out-pointer: nothing when it passed NULL. */
  function Out<T>(present: bool, v: T): (r: Option<T>)
    ensures r.Some? <==> present
    ensures r.Some? ==> r.value == v
  {
    if present then Some(v) else None
  }
}
