/** Small helper datatypes shared by the modules of this project. */
module Wrappers {

  /** A JavaScript value that may be `undefined` (or `null`): `None`, or a present value. */
  datatype Option<+T> = None | Some(value: T)
}
