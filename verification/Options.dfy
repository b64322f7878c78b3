/** An optional value: a null pointer, a search without a hit, an absent parameter. */
module Options {
  datatype Option<+T> = None | Some(value: T)
}
