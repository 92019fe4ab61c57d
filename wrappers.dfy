/** Optional values: Kotlin's nullable references (`T?`) and Java's null. */
module Wrappers {

  datatype Option<+T> = None | Some(value: T)
}
