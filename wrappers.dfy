/** Option and Result values used across the model in place of Python's None
    and raised exceptions. */
module Wrappers {

  datatype Option<+T> = None | Some(value: T) {
    function GetOr(default: T): T {
      match this
      case Some(v) => v
      case None => default
    }
  }

  datatype Result<+R, +E> = Ok(value: R) | Err(error: E)

  /** A key of a JSON object: absent, present as JSON `null`, or present with
      a value. */
  datatype Field<T> = Absent | Null | Given(v: T) {
    /** Python's `d.get(key, default)`: the default only for an absent key;
        a `null` comes back as `None`. */
    function Get(default: T): (r: Option<T>)
      ensures r.None? <==> Null?
      ensures Absent? ==> r == Some(default)
      ensures Given? ==> r == Some(v)
    {
      match this
      case Absent => Some(default)
      case Null => None
      case Given(x) => Some(x)
    }
  }
}
