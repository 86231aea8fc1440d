/** Kotlin's nullable values (`T?`) as an explicit option type. */
module Wrappers {
  datatype Option<+T> = None | Some(value: T)
}
