/** The optional value the shell's path helpers return where Python returns `None`. */
module Wrappers {

  datatype Option<+T> = None | Some(value: T)

}
