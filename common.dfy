/** Small value types shared by the other modules. */
module Common {

  /** Python's `None` or a present value. */
  datatype Option<+T> = None | Some(value: T)

  /** One octet of an HTTP body or an audio file. */
  newtype byte = x: int | 0 <= x < 256

  /** A `bytes` object. */
  type Bytes = seq<byte>
}
