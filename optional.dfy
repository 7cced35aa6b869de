/** The conventional Some/None wrapper, used where the model may come up empty. */
module Optional {
  datatype Option<+T> = None | Some(value: T)
}
