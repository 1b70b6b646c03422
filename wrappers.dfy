/** Small wrapper datatypes shared by the other modules. */
module Wrappers {

  /** An optional value; used for keyword arguments that may be omitted. */
  datatype Option<+T> = None | Some(value: T) {
    /** The held value, or `default` when there is none. */
    function GetOr(default: T): (r: T)
      ensures Some? ==> r == value
      ensures None? ==> r == default
    {
      match this
      case Some(v) => v
      case None => default
    }
  }

  /** Either a value or the error that prevented producing it. */
  datatype Result<+T, +E> = Ok(value: T) | Err(error: E)
}
