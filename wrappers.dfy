/** The optional value used where the source falls back to "not a number". */
module Wrappers {

  /** Either no value, or some value of type T. */
  datatype Option<+T> = None | Some(value: T)
}
