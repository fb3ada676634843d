/** Python's `None` versus a value, as the models of the application use it. */
module Wrappers {

  datatype Option<+T> = None | Some(value: T)

  /** The value of a dictionary entry as JSON decoding leaves it: the key may be
      missing, present with `null`, or present with a value. `dict.get(k)` and
      `dict.get(k, default)` differ exactly on a missing key. */
  datatype Field<+T> = Absent | Null | Value(v: T) {

    /** `data.get(k)`: Python `None` for a missing key and for `null`. */
    function Get(): Option<T>
    {
      if Value? then Some(v) else None
    }

    /** `data.get(k, default)`: the default only when the key is missing;
        a `null` stays `None`. */
    function GetOr(default: T): Option<T>
    {
      match this
      case Absent => Some(default)
      case Null => None
      case Value(x) => Some(x)
    }
  }
}
