/** Small failure-compatible wrapper shared by the other modules. */
module Wrappers {
  /** A value that may be missing (a JavaScript `undefined` return or an absent property). */
  datatype Option<+T> = None | Some(value: T)
}
