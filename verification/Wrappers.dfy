/** Small shared types: optional values, fallible results and bytes. */
module Wrappers {

  datatype Option<+T> = None | Some(value: T)

  /** The source returns `anyhow::Result`; which message an error carries is never inspected. */
  datatype Result<+T> = Ok(value: T) | Err

  type byte = x: int | 0 <= x < 256

  type Bytes = seq<byte>
}
