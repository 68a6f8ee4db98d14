/** Small failure-carrying datatypes shared by the other modules. */
module Optional {

  /** A value that may be absent, as Python's `None`. */
  datatype Option<+T> = None | Some(value: T) {

    /** The value, or `default` when it is absent (Python's `dict.get(key, default)`). */
    function GetOr(default: T): (r: T)
      ensures Some? ==> r == value
      ensures None? ==> r == default
    {
      match this
      case Some(v) => v
      case None => default
    }
  }

  /** Either a value or the message of the exception Python would raise instead. */
  datatype Result<+T> = Ok(value: T) | Err(error: string)
}
