/** A value that may be absent: used where a handler can produce nothing, such as
    a pointer move with no drag in progress. */
module Optional {

  datatype Option<+T> = None | Some(value: T)
}
