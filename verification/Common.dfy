/** Small vocabulary shared by every component. */
module Common {
  /** A value that may be absent: Go's nil pointers, missing map entries and undecodable payloads. */
  datatype Option<+T> = None | Some(value: T)

  /** Go strings and byte slices are sequences of bytes. */
  type Byte = x: int | 0 <= x < 256
  type Text = seq<Byte>
}
