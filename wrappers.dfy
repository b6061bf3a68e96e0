/** Failure-carrying results: Python's implicit `None` and the exceptions the decoder can raise. */
module Wrappers {

  datatype Option<+T> = None | Some(value: T)

  /** The exceptions the decoder can raise. Only the TypeError inside `unhexlify` is caught, by
      hex_to_int_le; the others escape from parse_packet. */
  datatype PyError =
    | KeyError     // a dictionary lookup with a code the table does not hold
    | TypeError    // `range(0, None)`, and the malformed-hex case inside `unhexlify`
    | StructError  // `unpack('<i', ...)` given a byte string that is not 4 bytes long

  /** The outcome of a Python call: it either returns a value or raises. */
  datatype PyResult<+T> = Ok(value: T) | Raise(error: PyError)
}
