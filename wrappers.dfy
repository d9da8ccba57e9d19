/** The optional value the model uses wherever the source has a nullable reference or an omitted argument. */
module Wrappers {

  datatype Option<+T> = None | Some(value: T)
}
