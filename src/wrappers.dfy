/** Optional values: the model's stand-in for `undefined`, `null` and `?.`. */
module Wrappers {

  datatype Option<+T> = None | Some(value: T) {

    /** The value, or `default` when absent (JavaScript's `??`). */
    function GetOr(default: T): T {
      match this
      case Some(v) => v
      case None => default
    }
  }

  /** JavaScript truthiness of an optional string: present and not empty. */
  predicate Truthy(q: Option<string>) {
    q.Some? && q.value != ""
  }
}
