/** The optional value used for JavaScript's `undefined` / `null` fields. */
module Wrappers {

  datatype Option<+T> = None | Some(value: T)
}
