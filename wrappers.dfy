/** The optional value used for JavaScript's `null` / `undefined` and for absent results. */
module Wrappers {

  datatype Option<+T> = None | Some(value: T)
}
