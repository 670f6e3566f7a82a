/** The optional value used for Python's `None` and for NumPy's NaN sentinel. */
module Wrappers {

  datatype Option<+T> = None | Some(value: T)
}
