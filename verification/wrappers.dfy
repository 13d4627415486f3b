/** An optional value, for lookups that can miss and for JavaScript's `T | null`. */
module Wrappers {
  datatype Option<+T> = None | Some(value: T)
}
