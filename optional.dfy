/** A value that may be absent: `undefined`/`null` in the JavaScript being modelled. */
module Optional {

  datatype Option<+T> = None | Some(value: T)
}
