/** Small vocabulary shared by every module: Java's nullable references,
    the exceptions the library throws, and Java's 32-bit `int`. */
module Base {

  /** A Java reference that may be null. */
  datatype Option<+T> = None | Some(value: T)

  /** The exceptions the builders throw at configuration time. */
  datatype Error =
    | NullPointer              // Objects.requireNonNull, or a call on a null argument
    | UnsupportedTemporalType  // java.time rejecting a ChronoUnit for a temporal kind

  /** A value, or the exception thrown instead of producing it. */
  datatype Result<+T> = Ok(value: T) | Err(error: Error)

  /** Completion of a configuration call: normal return, or the exception thrown. */
  datatype Outcome = Pass | Fail(error: Error)

  const MIN_INT: int := -0x8000_0000

  /** Java's `int`. */
  newtype int32 = x: int | MIN_INT <= x < 0x8000_0000
}
