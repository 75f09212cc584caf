/** The optional value the simulator returns where the source returns `null`. */
module Wrappers {
  datatype Option<+T> = None | Some(value: T)
}
