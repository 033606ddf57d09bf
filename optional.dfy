/** The optional value used for nullable C pointers and unset Python attributes. */
module Optional {

  datatype Option<+T> = None | Some(value: T)
}
