/** An optional value: Python's `None` or a present value. */
module Optional {

  datatype Option<T> = None | Some(value: T)
}
