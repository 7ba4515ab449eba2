/** Small helper datatypes shared by the modules of this model. */
module Wrappers {

  /** A value that may be missing: a Python `Optional[...]` or a key left out of a dict. */
  datatype Option<+T> = None | Some(value: T) {

    /** The value, or `default` when there is none (Python's `d.get(k, default)`). */
    function GetOr(default: T): T
    {
      match this
      case Some(v) => v
      case None => default
    }
  }
}
