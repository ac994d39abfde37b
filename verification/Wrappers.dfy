/** Small types shared by every module. */
module Wrappers {

  datatype Option<+T> = None | Some(value: T)

  /** The source's error returns. The error text is never inspected, so it is not carried. */
  datatype Result<+T> = Ok(value: T) | Err

  /** One raw byte. */
  type Byte = b: int | 0 <= b < 256
}
