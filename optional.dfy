/** Java's nullable references, as a value: `None` stands for `null`. */
module Optional {

  datatype Option<+T> = None | Some(value: T)

}
