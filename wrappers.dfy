/** Option stands for a floating-point value that may be NaN: None is NaN. */
module Wrappers {

  datatype Option<+T> = None | Some(value: T)
}
