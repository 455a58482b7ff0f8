/** The usual optional value: `None` stands for "absent" or "no result". */
module Optional {
  datatype Option<+T> = None | Some(value: T)
}
