/** The optional-value type shared by the other modules. */
module Wrappers {

  /** Either nothing or one value. */
  datatype Option<+T> = None | Some(value: T)
}
