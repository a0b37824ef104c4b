// Fixed-width integer types of the C++ code (Common/TypeDef.h) and the
// narrowing casts the importer performs between them.
module TypeDef {

  type u1 = x: int | 0 <= x < 2
  type u8 = x: int | 0 <= x < 0x100
  type u16 = x: int | 0 <= x < 0x1_0000
  type u32 = x: int | 0 <= x < 0x1_0000_0000
  type i32 = x: int | -0x8000_0000 <= x < 0x8000_0000

  /** The C++ `float`; its contents are never inspected, so it stays abstract. */
  type Float(==, !new)

  /** `static_cast<uint8>(v)` of a `uint16`: keeps the low byte. */
  function ToUInt8(v: u16): (r: u8)
    ensures r == v % 256
    ensures v < 256 ==> r == v
  {
    v % 0x100
  }

  /** `static_cast<uint16>(v)` of a `uint32`: keeps the low two bytes. */
  function ToUInt16(v: u32): (r: u16)
    ensures r == v % 65536
    ensures v < 65536 ==> r == v
  {
    v % 0x1_0000
  }

  /** Storing a `uint8` into a one-bit field `uint8 f : 1` keeps the low bit. */
  function ToBitField(v: u8): (r: u1)
    ensures r == 1 <==> v % 2 == 1
  {
    v % 2
  }

  /** `uint32` addition, which wraps modulo 2^32. */
  function AddUInt32(a: u32, b: u32): (r: u32)
    ensures a + b < 0x1_0000_0000 ==> r == a + b
    ensures a + b >= 0x1_0000_0000 ==> r == a + b - 0x1_0000_0000
  {
    (a + b) % 0x1_0000_0000
  }
}
