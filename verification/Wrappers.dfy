/** An optional value, used for `std::optional` and for nullable smart pointers. */
module Wrappers {
  datatype Option<+T> = None | Some(value: T)
}
