/** The optional value used for JavaScript's `null`/`undefined` alternatives. */
module Options {

  datatype Option<+T> = None | Some(value: T)
}
