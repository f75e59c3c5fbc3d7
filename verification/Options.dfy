/** The conventional optional value, used for "found or not found" results. */
module Options {
  datatype Option<+T> = None | Some(value: T)
}
