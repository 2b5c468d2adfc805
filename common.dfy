/** Types shared by every module of the model. */
module Common {

  /** One octet of a BLE attribute value or of a link-layer address. */
  type byte = x: int | 0 <= x < 0x100

  /** A value that may be absent (a null pointer, a missing name). */
  datatype Option<+T> = None | Some(value: T)
}
