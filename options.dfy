/** An optional value: a Python attribute that may never have been set, or a
    call that produced nothing. */
module Options {
  datatype Option<T> = None | Some(value: T)
}
