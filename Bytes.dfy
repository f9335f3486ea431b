/** Bytes as the source sees them after `and 0xFF`: values 0..255. */
module Bytes {

  type Byte = b: int | 0 <= b < 0x100

  /** Kotlin's `Byte.toInt()`: the two's-complement reading of the byte. */
  function ToSigned(b: Byte): (v: int)
    ensures -0x80 <= v < 0x80
    ensures (v + 0x100) % 0x100 == b
    ensures v < 0 <==> b >= 0x80
  {
    if b < 0x80 then b else b - 0x100
  }

  /** A big-endian 16-bit read masked with `and 0xFFFF`. */
  function BigEndian16(hi: Byte, lo: Byte): (v: int)
    ensures 0 <= v < 0x10000
    ensures v / 0x100 == hi && v % 0x100 == lo
  {
    hi * 0x100 + lo
  }
}
