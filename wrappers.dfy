/** Option type used for values the source reports through a boolean flag and an out-parameter. */
module Wrappers {

  datatype Option<+T> = None | Some(value: T)
}
