/** Java's 32-bit `int`. */
module Int32 {

  const MIN_VALUE: int := -0x8000_0000
  const MAX_VALUE: int := 0x7FFF_FFFF

  /** The values a Java `int` can hold (`Integer.MIN_VALUE` .. `Integer.MAX_VALUE`). */
  newtype int32 = x: int | MIN_VALUE <= x <= MAX_VALUE
}
