/** The optional result the Python code expresses with `None`. */
module Options {

  datatype Option<+T> = None | Some(value: T)
}
