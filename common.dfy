/** Shared vocabulary of the proctoring model: an optional value and the
    abstract clock every per-frame update is given. */
module Common {

  /** Wall-clock seconds. The model uses one reading of the clock per frame. */
  type Time = real

  datatype Option<T> = None | Some(value: T) {
    /** The held value, or `default` when there is none. */
    function GetOr(default: T): (r: T)
      ensures Some? ==> r == value
      ensures None? ==> r == default
    {
      match this
      case Some(v) => v
      case None => default
    }
  }
}
