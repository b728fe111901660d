/** The value-or-nothing type used for JavaScript's `null`/`undefined` fields and for
    reads that fail. */
module Optional {

  datatype Option<+T> = None | Some(value: T)
}
