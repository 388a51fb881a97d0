/** The Some/None datatype used where the driver passes a pointer that may be null
    or a lookup that may find nothing. */
module Optional {

  datatype Option<+T> = None | Some(value: T)
}
