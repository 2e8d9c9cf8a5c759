/** The optional-value datatype the model uses for "no match". */
module Wrappers {

  datatype Option<+T> = None | Some(value: T)
}
