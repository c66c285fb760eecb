/** Option and Result values used where the bot reads an optional dictionary
    entry or where a Python lookup would raise. */
module Wrappers {

  /** A value that may be missing, as a `dict.get` without default returns `None`. */
  datatype Option<+T> = None | Some(value: T) {

    /** The value when present, otherwise `default` (Python's `d.get(k, default)`). */
    function GetOr(default: T): T
    {
      match this
      case Some(v) => v
      case None => default
    }
  }

  /** The outcome of an operation that raises in the source. */
  datatype Result<+T, +E> = Ok(value: T) | Err(error: E)
}
