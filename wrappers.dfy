/** The optional value used wherever the pipeline works with "nothing yet" or "not found". */
module Wrappers {

  datatype Option<+T> = None | Some(value: T)
}
