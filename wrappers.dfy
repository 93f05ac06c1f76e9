/** The optional value used for the stored reference, which is `null` until a resolution chain settles. */
module Wrappers {

  datatype Option<+T> = None | Some(value: T)
}
