/** Small value types shared by every module of the model. */
module Common {

  /** A value that may be missing: JavaScript's `null` / `undefined` next to a real value. */
  datatype Option<+T> = None | Some(value: T) {

    /** The value, or `default` when there is none. */
    function GetOr(default: T): T {
      match this
      case Some(v) => v
      case None => default
    }
  }

  /** One octet of an `ArrayBuffer`. */
  newtype byte = x: int | 0 <= x < 256

  /**
   * JavaScript truthiness of a `string | null`: `null` and `''` are falsy,
   * every other string is truthy.
   */
  predicate Truthy(s: Option<string>) {
    s.Some? && s.value != ""
  }
}
