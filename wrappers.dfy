/** The optional-value datatype used by the model's partial results. */
module Wrappers {

  datatype Option<+T> = None | Some(value: T)

}
