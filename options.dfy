/** The optional value used for the script's lookups that can miss (a key absent from a table). */
module Options {

  datatype Option<+T> = None | Some(value: T)
}
