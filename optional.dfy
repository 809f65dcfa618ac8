/** A C pointer that may be NULL (a `GString*`, a `const char*`, a `LineData*`) is an Option. */
module Optional {

  datatype Option<+T> = None | Some(value: T)
}
