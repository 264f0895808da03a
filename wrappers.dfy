/** Python's `None`-or-value, as the source's functions return it. */
module Wrappers {

  datatype Option<+T> = None | Some(value: T)

}
