/** Optional values: a Python dictionary key that is missing, or present with
    the value None, is `None`; anything else is `Some`. (A key tested only for
    presence is the exception: there a present None is `Some`.) */
module Wrappers {

  datatype Option<+T> = None | Some(value: T) {

    /** The value, or `default` when there is none (Python's `d.get(k, default)`). */
    function GetOr(default: T): (r: T)
      ensures Some? ==> r == value
      ensures None? ==> r == default
    {
      match this
      case Some(v) => v
      case None => default
    }
  }
}
