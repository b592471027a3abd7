/** The optional value used wherever the source has a field that may be absent
    (`undefined`) or a lookup that may fail. */
module Optional {

  datatype Option<+T> = None | Some(value: T)
}
