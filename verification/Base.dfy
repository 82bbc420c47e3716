/** Small datatypes shared by the models of the program's packages. */
module Base {

  newtype byte = x: int | 0 <= x < 256

  /** A value that may be absent: a nil pointer, a missing map entry, an empty channel slot. */
  datatype Option<+T> = None | Some(value: T)

  /** The program's `(value, error)` returns; the model keeps no error texts. */
  datatype Result<+T> = Ok(value: T) | Err
}
