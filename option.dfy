/** An optional value: an input field left empty, or a click position
    not yet recorded. */
module Optional {
  datatype Option<T> = None | Some(value: T)
}
