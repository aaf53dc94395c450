/** The optional value used for JavaScript's `undefined` fields and failed Map lookups. */
module Wrappers {

  datatype Option<+T> = None | Some(value: T)
}
