/** The optional value used for nullable columns and nullable record fields. */
module Options {
  datatype Option<+T> = None | Some(value: T)
}
