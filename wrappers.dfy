/** Failure-compatible wrappers shared by the whole model. */
module Wrappers {

  /** An optional value: Python's `None` or a present value. */
  datatype Option<+T> = None | Some(value: T) {

    /** The value, or `default` when there is none (`x if x is not None else default`). */
    function GetOr(default: T): T {
      match this
      case Some(v) => v
      case None => default
    }
  }

  /**
   * A key of a JSON-like record: absent, present with value `null`, or present
   * with a value. `Get(d)` is Python's `record.get(key, d)`: the default only
   * replaces an absent key, never an explicit `null`.
   */
  datatype Field<+T> = Missing | Null | Present(value: T) {

    function Get(default: T): (r: Option<T>)
      ensures Missing? ==> r == Some(default)
      ensures Null? ==> r == None
      ensures Present? ==> r == Some(value)
    {
      match this
      case Missing => Some(default)
      case Null => None
      case Present(v) => Some(v)
    }
  }
}
