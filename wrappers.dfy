/** The optional value a lookup or a checked constructor call yields. */
module Wrappers {

  /** `None` where the source has no value to offer (an unknown key, a rejected argument list). */
  datatype Option<+T> = None | Some(value: T)
}
