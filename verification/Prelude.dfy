/** The optional value shared by the modules of this project. */
module Prelude {
  datatype Option<+T> = None | Some(value: T)
}
