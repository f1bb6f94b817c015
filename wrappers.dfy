/** Java's nullable references, written out. */
module Wrappers {

  /** `None` stands for a Java `null`, `Some(v)` for a non-null reference to `v`. */
  datatype Option<+T> = None | Some(value: T)

  /** A Java `String` reference: `None` is `null`. */
  type Text = Option<string>
}
