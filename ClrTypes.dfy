/** CLR value types shared by the mapping attributes. */
module ClrTypes {
  /** A .NET `System.Int32`. */
  newtype int32 = x: int | -0x8000_0000 <= x < 0x8000_0000
}
