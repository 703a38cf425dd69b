/** The optional value that stands for Swift's `T?` in this model. */
module Options {

  datatype Option<T> = None | Some(value: T)
}
