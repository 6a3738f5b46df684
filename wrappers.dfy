/** Optional values, standing for Python's None and JavaScript's null/undefined. */
module Wrappers {

  datatype Option<+T> = None | Some(value: T) {

    /** The value, or `default` when absent (Python's `x or d` on a present value). */
    function GetOr(default: T): T
    {
      match this
      case Some(v) => v
      case None => default
    }
  }

  /**
   * Whether an optional string carries a non-empty value: the truthiness of a
   * string in Python and in JavaScript alike (None/null/undefined and "" are false).
   */
  predicate Given(s: Option<string>)
  {
    s.Some? && s.value != ""
  }
}
