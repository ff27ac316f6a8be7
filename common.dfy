/** Value wrappers shared by every module of the model. */
module Common {

  /** Python's `None` or a value. */
  datatype Option<+T> = None | Some(value: T) {
    /** The value, or `default` when there is none. */
    function GetOr(default: T): (v: T) {
      match this
      case Some(v) => v
      case None => default
    }
  }

  /** The outcome of a step that may raise instead of returning. */
  datatype Result<+T, +E> = Ok(value: T) | Err(error: E)

  /** A member of a decoded JSON object as Python's `dict` sees it: the key is
      missing, present with `null`, or present with a value. */
  datatype Field<+T> = Absent | Null | Present(value: T) {
    /** `d.get(key, default)`: the default only when the key is missing. */
    function Get(default: Option<T>): (v: Option<T>) {
      match this
      case Absent => default
      case Null => None
      case Present(v) => Some(v)
    }
  }
}
