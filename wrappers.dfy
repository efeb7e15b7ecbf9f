/** A value that may be absent: a missing storage entry, an optional field, no selection. */
module Wrappers {
  datatype Option<+T> = None | Some(value: T)
}
