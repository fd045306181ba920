/** The optional value the game stores where JavaScript uses `null`. */
module Optional {

  datatype Option<+T> = None | Some(value: T)
}
