/** The optional value used for nullable handles and skipped renders. */
module Options {

  datatype Option<+T> = None | Some(value: T)
}
