/** The optional-value datatype used throughout the model: `Some` stands for a key
    that is present in a Python dict, `None` for one that is absent (or for a
    subscript that would raise). */
module Wrappers {

  datatype Option<+T> = None | Some(value: T) {

    /** True if this is None; lets `:-` propagate a failed step. */
    predicate IsFailure() {
      None?
    }

    function PropagateFailure<U>(): Option<U>
      requires None?
    {
      None
    }

    function Extract(): T
      requires Some?
    {
      value
    }

    /** The wrapped value, or `default` when absent (Python's `dict.get(key, default)`). */
    function GetOr(default: T): T {
      match this
      case Some(v) => v
      case None => default
    }
  }
}
