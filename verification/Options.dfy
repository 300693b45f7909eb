/** The optional value used throughout the model for a Go nil, a missing map key or an error return. */
module Options {
  datatype Option<+T> = None | Some(value: T)
}
