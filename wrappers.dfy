/** Small value wrappers shared by the modules of the model. */
module Wrappers {

  /** A JavaScript value that may be `undefined`: `None` stands for `undefined`. */
  datatype Option<+T> = None | Some(value: T)
}
