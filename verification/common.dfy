/** Machine integer ranges and the outcome of an operation that may panic. */
module Common {

  const U8_LIMIT: nat := 0x100
  const U16_LIMIT: nat := 0x1_0000
  const U32_LIMIT: nat := 0x1_0000_0000

  type u8 = x: nat | x < U8_LIMIT
  type u16 = x: nat | x < U16_LIMIT
  type u32 = x: nat | x < U32_LIMIT

  /** How an operation ended: it returned normally, or it reached a Rust `panic!`
      (an explicit one, an `unwrap` on an error, an index out of range). */
  datatype Status = Returned | Panicked

  datatype Option<T> = None | Some(value: T)

  /** A value, or the panic that prevented it. */
  datatype Outcome<T> = Value(value: T) | Panic
}
