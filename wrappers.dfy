/** Optional values and the JavaScript truthiness tests the library applies to them. */
module Wrappers {

  /** A value that may be absent (`undefined` or `null` in JavaScript). */
  datatype Option<+T> = None | Some(value: T) {

    /** The held value, or `default` when absent (JavaScript's `x || default`
        for values that are always truthy when present, such as objects). */
    function GetOr(default: T): T {
      match this
      case Some(v) => v
      case None => default
    }
  }

  /** The completion of a call: it returns a value, or throws. */
  datatype Result<+T> = Success(value: T) | Failure(error: string)

  /** A string is truthy in JavaScript when present and non-empty. */
  predicate TruthyString(v: Option<string>) {
    v.Some? && v.value != ""
  }

  /** A boolean option is truthy when present and true. */
  predicate TruthyBool(v: Option<bool>) {
    v.Some? && v.value
  }
}
