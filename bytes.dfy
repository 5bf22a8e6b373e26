/** Conversions between the integers of the C code and the bytes on the
    wire. */
module Bytes {
  lemma ByteInjective(a: int, b: int)
    requires 0 <= a < 256 && 0 <= b < 256 && a != b
    ensures a as bv8 != b as bv8
  {
    ByteRound(a);
    ByteRound(b);
  }

  lemma ByteRound(v: int)
    requires 0 <= v < 256
    ensures (v as bv8) as int == v
  {
    if v < 64 {
      if v < 16 {} else if v < 32 {} else if v < 48 {} else {}
    } else if v < 128 {
      if v < 80 {} else if v < 96 {} else if v < 112 {} else {}
    } else if v < 192 {
      if v < 144 {} else if v < 160 {} else if v < 176 {} else {}
    } else {
      if v < 208 {} else if v < 224 {} else if v < 240 {} else {}
    }
  }

  /** A page number below 16 stays below 16 as a byte. */
  lemma PageByte(v: int)
    requires 0 <= v < 16
    ensures v as bv8 < 16
  {
  }

  lemma IntRound(b: bv8)
    ensures (b as int) as bv8 == b
  {
  }
}
