/** The optional value used for JavaScript's `undefined` / `null` where the model needs one. */
module Wrappers {

  datatype Option<+T> = None | Some(value: T)
}
