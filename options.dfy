/** The optional value used wherever the game looks something up that may be absent. */
module Options {

  datatype Option<+T> = None | Some(value: T)
}
