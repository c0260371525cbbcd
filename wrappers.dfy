/** Optional and fallible values, shared by every module of the model. */
module Wrappers {

  /** A value that may be absent: a missing JSON key, SQL null, or `undefined`. */
  datatype Option<+T> = None | Some(value: T) {

    /** JavaScript's `x || d` for a value whose present form is never falsy. */
    function GetOr(default: T): T {
      match this
      case Some(v) => v
      case None => default
    }
  }

  /** The result of a call that can throw: a value, or the thrown error's message. */
  datatype Result<+T> = Ok(value: T) | Err(message: string)

  /** JavaScript truthiness of an optional string: absent and "" are falsy. */
  predicate Truthy(s: Option<string>) {
    s.Some? && s.value != ""
  }
}
