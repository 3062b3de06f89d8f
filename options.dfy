/** The optional value used for every `std::optional` of the source. */
module Options {

  datatype Option<+T> = None | Some(value: T)
}
