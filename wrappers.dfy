/** The optional value: JavaScript's `undefined` against a present value. */
module Wrappers {

  datatype Option<+T> = None | Some(value: T)
}
