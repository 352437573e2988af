/** The optional value used for "this vehicle got a road / did not". */
module Options {
  datatype Option<+T> = None | Some(value: T)
}
