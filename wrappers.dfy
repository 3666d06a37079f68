/** Absent-or-present values: JavaScript's `null`/`undefined` against a value. */
module Wrappers {

  datatype Option<+T> = None | Some(value: T)
}
