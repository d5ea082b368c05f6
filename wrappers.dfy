/** The optional result of a lookup (`T?` in the Kotlin source). */
module Wrappers {
  datatype Option<+T> = None | Some(value: T)
}
