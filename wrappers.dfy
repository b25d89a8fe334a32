/** Option, for the places where the source yields `null`, `undefined`, or throws. */
module Wrappers {

  datatype Option<+T> = None | Some(value: T)
}
