/** Small shared vocabulary: Java's nullable references as Option, thrown-or-returned
    outcomes as Result, and the fixed-width integer types Java uses. */
module Base {

  /** A Java reference that may be null: None stands for null. */
  datatype Option<+T> = None | Some(value: T)

  /** Either a returned value or a thrown exception. */
  datatype Result<+R, +E> = Success(value: R) | Failure(error: E)

  /** One byte of an HTTP body. */
  type byte = b: int | 0 <= b < 256

  const TWO_TO_THE_64: nat := 0x1_0000_0000_0000_0000
  const TWO_TO_THE_63: nat := 0x8000_0000_0000_0000

  /** The values an unsigned 64-bit integer can take. */
  type u64 = n: int | 0 <= n < TWO_TO_THE_64

  /** Java's `long`: a 64-bit two's-complement integer. */
  type int64 = n: int | -(TWO_TO_THE_63 as int) <= n < TWO_TO_THE_63
}
