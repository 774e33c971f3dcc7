/** Stock failure-compatible wrapper used throughout the model. */
module Wrappers {

  /** `None` stands for a Python `None`, a missing dictionary key or a failed fetch. */
  datatype Option<+T> = None | Some(value: T) {

    /** The wrapped value, or `default` when there is none (Python's `d.get(k, default)`). */
    function GetOr(default: T): T
    {
      match this
      case Some(v) => v
      case None => default
    }
  }
}
