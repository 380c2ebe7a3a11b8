/** Small shared datatypes used by the component models. */
module Wrappers {

  /** A value that may be absent (the `undefined` of a failed lookup). */
  datatype Option<+T> = None | Some(value: T)
}
