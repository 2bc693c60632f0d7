/** The optional value used for Python's `None`-or-value parameters and for
    outcomes that can fail. */
module Wrappers {

  datatype Option<+T> = None | Some(value: T)

}
