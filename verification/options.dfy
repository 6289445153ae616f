/** The optional value used where the source stores or returns `None`. */
module Options {

  datatype Option<T> = None | Some(value: T)
}
