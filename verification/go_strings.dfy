/**
 Go strings as the handler sees them: immutable sequences of bytes, whose
 `len` counts bytes and whose slicing `s[:l]` keeps the first `l` bytes.
 */
module GoStrings {

  /**
   One byte of a Go string, written as the character with that code, so that
   the handler's ASCII literals read as themselves.
   */
  type byte = c: char | c as int < 256

  /** A Go `string` value. */
  type GoString = seq<byte>
}

/** Optional values and results with an error, for the handler's error paths. */
module Wrappers {

  datatype Option<+T> = None | Some(value: T)

  datatype Result<+T, +E> = Ok(value: T) | Err(error: E)
}
