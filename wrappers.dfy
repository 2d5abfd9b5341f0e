/** Option and exception-carrying results shared by every module of the model. */
module Wrappers {

  datatype Option<T> = None | Some(value: T) {
    /** `d.get(key, default)` for a key that may be absent. */
    function OrElse(default: T): (r: T)
      ensures Some? ==> r == value
      ensures None? ==> r == default
    {
      if Some? then value else default
    }
  }

  /** The Python exceptions the modelled code raises or catches, by class. */
  datatype Exception =
    | ValueError
    | KeyError
    | TypeError
    | AttributeError
    | ZeroDivisionError
    | OSError        // a file-system call on the wrong kind of path
    | LoadError      // whatever a deserialiser raises on an unreadable file

  /** The outcome of a Python call that either returns or raises. */
  datatype Try<T> = Ok(value: T) | Raised(exc: Exception)
}
