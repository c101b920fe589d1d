/** An optional value: a resolved type, or none when the compiler would reject the program. */
module Options {

  datatype Option<+T> = None | Some(value: T)
}
