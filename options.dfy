/** The optional value that stands for Python's `None`, JavaScript's `null`
    and `undefined` throughout the model. */
module Options {

  datatype Option<+T> = None | Some(value: T)
}
