/** The optional value used wherever the source returns `None` or `False`
    for "nothing found". */
module Options {
  datatype Option<T> = None | Some(value: T)
}
