/** The optional value used wherever the source works with a Java reference that may be null. */
module Optional {

  datatype Option<+T> = None | Some(value: T)

}
