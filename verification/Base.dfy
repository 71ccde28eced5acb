/** Vocabulary shared by every module: optional values, results and machine words. */
module Base {

  datatype Option<+T> = None | Some(value: T)

  /** Where the source throws, the model returns `Err`. */
  datatype Result<+T> = Ok(value: T) | Err(error: Error)

  /** Why an operation is refused: the caller's argument, the state of the
      session, the data that is being read, or a ptrace call that failed. */
  datatype Error = InvalidArgument | LogicError | RuntimeError | PtraceError

  type Byte = b: int | 0 <= b < 256

  const TWO64: int := 0x1_0000_0000_0000_0000
  const TWO63: int := 0x8000_0000_0000_0000

  /** The 64-bit unsigned and signed integers. */
  type U64 = x: int | 0 <= x < TWO64
  type I64 = x: int | -TWO63 <= x < TWO63

  /** Wrap-around of an unsigned 64-bit sum or product. */
  function Wrap64(x: int): U64 {
    x % TWO64
  }

  /** Reinterpretation of 64 bits as a two's-complement number. */
  function Signed64(x: U64): I64 {
    if x < TWO63 then x else x - TWO64
  }
}
