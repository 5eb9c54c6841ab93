/** The optional value the model uses for "not computed yet" and "step not possible". */
module Wrappers {
  datatype Option<+T> = None | Some(value: T)
}
