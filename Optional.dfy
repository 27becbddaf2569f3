/** The optional value that the source expresses with `null`/`undefined`. */
module Optional {

  datatype Option<+T> = None | Some(value: T)
}
