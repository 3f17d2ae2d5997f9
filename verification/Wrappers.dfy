/** Values that may be absent, results that may be errors, and a list's elements. */
module Wrappers {

  datatype Option<+T> = None | Some(value: T)

  datatype Result<+T, +E> = Ok(value: T) | Err(error: E)

  function ToSet<T>(xs: seq<T>): set<T> { set x | x in xs }
}
