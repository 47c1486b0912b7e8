/** The optional value the model uses for "nothing escaped" versus "this was thrown". */
module Wrappers {

  datatype Option<+T> = None | Some(value: T)
}
