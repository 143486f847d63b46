/** An optional value, for the results the source signals with an early return, a null or an exception. */
module Options {
  datatype Option<T> = None | Some(value: T)
}
