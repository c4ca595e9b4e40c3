/** Swift's `Optional`, as far as the drag handler uses it. */
module Optional {

  datatype Option<+T> = None | Some(value: T)
}
