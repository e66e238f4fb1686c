/** Small shared vocabulary: optional values, results and bytes. */
module Common {

  datatype Option<+T> = None | Some(value: T)

  /** The outcome of a call into a codec: a value or the error text it reported. */
  datatype Result<+T> = Success(value: T) | Failure(error: string)

  newtype byte = b: int | 0 <= b < 0x100

  type Bytes = seq<byte>
}
