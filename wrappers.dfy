/** An optional value, for `null` results of store lookups. */
module Wrappers {
  datatype Option<+T> = None | Some(value: T)
}
