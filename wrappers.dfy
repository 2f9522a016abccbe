/** Optional values: a Python `None` or a present value. */
module Wrappers {

  datatype Option<T> = None | Some(value: T)

  /** A key of a decoded JSON object: missing, present with `null`, or present with a value. */
  datatype Field<T> = Missing | Null | Present(value: T)

  /** `dict.get(key)` with no default: a missing key and a `null` both read as `None`. */
  function Get<T>(f: Field<T>): (r: Option<T>)
    ensures r.Some? <==> f.Present?
    ensures r.Some? ==> r.value == f.value
  {
    match f
    case Present(v) => Some(v)
    case _ => None
  }
}
