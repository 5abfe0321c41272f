/** The nullable values of the application (`null` for "no friend selected"). */
module Optional {

  datatype Option<+T> = None | Some(value: T)
}
