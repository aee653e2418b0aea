/** The fixed-width Java value types that the builder stores. */
module JavaTypes {

  /** Java `byte`: signed, 8 bits. */
  newtype byte = x: int | -0x80 <= x < 0x80

  /** Java `int`: signed, 32 bits. */
  newtype int32 = x: int | -0x8000_0000 <= x < 0x8000_0000

  /** Java `long`: signed, 64 bits. */
  newtype int64 = x: int | -0x8000_0000_0000_0000 <= x < 0x8000_0000_0000_0000

  /** `java.time.LocalDate`, kept opaque: the builder only stores and copies it. */
  datatype LocalDate = LocalDate(epochDay: int)
}
