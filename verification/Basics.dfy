/** Small value types shared by the protocol models. */
module Basics {

  datatype Option<+T> = None | Some(value: T)
}
