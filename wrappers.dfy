/** The optional value of Kotlin's nullable types (`T?`). */
module Wrappers {

  datatype Option<+T> = None | Some(value: T)
}
