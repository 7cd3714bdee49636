/** Option and Result values used wherever the backend returns None or raises. */
module Wrappers {
  datatype Option<T> = None | Some(value: T)

  /** An HTTP-level or Python-level failure, carried as a value instead of an exception. */
  datatype Result<T, E> = Ok(value: T) | Err(error: E)

  /** `x or default` for an optional value whose only falsy form is None. */
  function GetOr<T>(o: Option<T>, default: T): (r: T)
    ensures o.Some? ==> r == o.value
    ensures o.None? ==> r == default
  {
    if o.Some? then o.value else default
  }
}
