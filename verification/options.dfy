/** An optional value, for the places where the game returns None. */
module Options {
  datatype Option<T> = None | Some(value: T)
}
