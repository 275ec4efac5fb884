/** The optional value used for JavaScript's `undefined` and for lookups that find nothing. */
module Wrappers {

  datatype Option<+T> = None | Some(value: T)
}
