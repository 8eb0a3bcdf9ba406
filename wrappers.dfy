/** The optional value used wherever the relay's source may hold `None`. */
module Wrappers {

  datatype Option<+T> = None | Some(value: T)
}
