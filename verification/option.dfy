/** A value or none: the source's `std::optional` and null pointers. */
module Options {
  datatype Option<+T> = None | Some(value: T)
}
