/** Optional values: the model's stand-in for TypeScript's optional fields,
    `undefined` and SQL `NULL`. */
module Wrappers {

  datatype Option<T> = None | Some(value: T) {

    /** The carried value, or `fallback` when there is none. */
    function ValueOr(fallback: T): T {
      if this.Some? then value else fallback
    }

    /** `other` when it is present, otherwise this value: the effect of
        spreading an object that may or may not carry the key. */
    function OverriddenBy(other: Option<T>): Option<T> {
      if other.Some? then other else this
    }
  }
}
