/** Values shared by the parts of the reader script. */
module Common {

  /** One octet on the USB wire. */
  newtype byte = x: int | 0 <= x < 256

  datatype Option<T> = None | Some(value: T)
}
