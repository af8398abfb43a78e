/** Kotlin's nullable types (`T?`): a field or argument that may hold `null`. */
module Nullable {

  datatype Option<+T> = None | Some(value: T)
}
