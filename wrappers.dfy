/** Small value wrappers shared by the modules of the model. */
module Wrappers {

  /** An optional value: JavaScript's `undefined` / `null` versus a present value. */
  datatype Option<+T> = None | Some(value: T)
}
