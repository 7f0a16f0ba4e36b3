/** The optional value used for every record field that a JSON object may lack. */
module Wrappers {

  datatype Option<+T> = None | Some(value: T)
}
