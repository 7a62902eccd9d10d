/** Kotlin's nullable values (`T?`) are modelled as Option. */
module Wrappers {
  datatype Option<+T> = None | Some(value: T)
}
