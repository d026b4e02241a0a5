/** The optional value: a Go result that comes with an error or a missing map key. */
module Options {
  datatype Option<+T> = None | Some(value: T)
}
