/** A value that JavaScript may leave `undefined`: `None` stands for `undefined`. */
module Optional {

  datatype Option<+T> = None | Some(value: T)

}
