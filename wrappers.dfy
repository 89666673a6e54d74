/** The optional value used wherever the application has `Optional[...]` or `None`. */
module Wrappers {

  datatype Option<+T> = None | Some(value: T)
}
