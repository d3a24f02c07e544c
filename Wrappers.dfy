/** The optional-value datatype the model uses for lookups that can fail. */
module Wrappers {

  datatype Option<+T> = None | Some(value: T)
}
