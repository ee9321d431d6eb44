/** An optional value, standing in for a Java reference field that may be null. */
module Options {

  datatype Option<+T> = None | Some(value: T)
}
