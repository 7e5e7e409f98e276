/** Optional values: Python's `None` against a present value. */
module Wrappers {
  datatype Option<T> = None | Some(value: T)

  function OrElse<T>(o: Option<T>, default: T): T
  {
    match o
    case None => default
    case Some(v) => v
  }
}
