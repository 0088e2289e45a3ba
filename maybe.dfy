/** An optional value: Python's `None` or a present value. */
module Maybe {

  datatype Option<T> = None | Some(value: T)
}
