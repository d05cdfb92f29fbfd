/** 24-bit values on 32-bit words, with the shifts and masks of the source. */
module Words {

  /** A byte as bits, from its two halves. */
  function Octet(b: nat): bv8
    requires b < 256
  {
    ((b / 16) as bv4 as bv8 << 4) | ((b % 16) as bv4 as bv8)
  }

  lemma HalfByte(v: nat)
    requires v < 16
    ensures v as bv4 as int == v
  {}

  lemma JoinHalves(x: bv4, y: bv4)
    ensures ((x as bv8 << 4) | (y as bv8)) as int == 16 * (x as int) + y as int
  {}

  lemma OctetValue(b: nat)
    requires b < 256
    ensures Octet(b) as int == b
  {
    HalfByte(b / 16);
    HalfByte(b % 16);
    JoinHalves((b / 16) as bv4, (b % 16) as bv4);
  }

  function Value(w: bv32): int { w as int }

  function Word24(x: bv8, y: bv8, z: bv8): bv32 { (x as bv32 << 16) | (y as bv32 << 8) | (z as bv32) }

  /** The top byte is set when bit 23 is. */
  function SignExtended(w: bv32): bv32 { if w & 0x80_0000 != 0 then w | !0xff_ffff else w }

  function AsI32(w: bv32): int { if w & 0x8000_0000 != 0 then Value(w) - 0x1_0000_0000 else Value(w) }

  lemma ShiftedBytes(x: bv8, y: bv8, z: bv8)
    ensures Value((x as bv32 << 16) | (y as bv32 << 8) | (z as bv32)) ==
            65536 * (x as int) + 256 * (y as int) + z as int
  {}

  lemma WordValue(x: bv8, y: bv8, z: bv8)
    ensures Value(Word24(x, y, z)) == 65536 * (x as int) + 256 * (y as int) + z as int
  {
    hide Value;
    ShiftedBytes(x, y, z);
  }

  lemma TopBit(x: bv8)
    ensures x & 0x80 != 0 <==> x as int >= 0x80
  {}

  /** Bit 23 decides, and it becomes the sign of the word. */
  lemma SignBit(x: bv8, y: bv8, z: bv8)
    ensures var w := Word24(x, y, z);
            && (w & 0x80_0000 != 0 <==> x & 0x80 != 0)
            && (SignExtended(w) & 0x8000_0000 != 0 <==> x & 0x80 != 0)
            && SignExtended(w) == if x & 0x80 != 0 then w | 0xff00_0000 else w
  {}

  lemma MarkedBytes(x: bv8, y: bv8, z: bv8)
    ensures Value((x as bv32 << 16) | (y as bv32 << 8) | (z as bv32) | 0xff00_0000) ==
            65536 * (x as int) + 256 * (y as int) + z as int + 0xff00_0000
  {}

  lemma TopByteSet(x: bv8, y: bv8, z: bv8)
    ensures Value(Word24(x, y, z) | 0xff00_0000) ==
            65536 * (x as int) + 256 * (y as int) + z as int + 0xff00_0000
  {
    hide Value;
    MarkedBytes(x, y, z);
  }

  /** Sign extension by masks subtracts 2^24 exactly from the upper half. */
  lemma SignExtensionIsSigned(x: bv8, y: bv8, z: bv8)
    ensures var v := 65536 * (x as int) + 256 * (y as int) + z as int;
            AsI32(SignExtended(Word24(x, y, z))) == if v >= 0x80_0000 then v - 0x100_0000 else v
  {
    hide SignExtended, Word24, Value;
    SignBit(x, y, z);
    TopBit(x);
    WordValue(x, y, z);
    TopByteSet(x, y, z);
  }

  /** A signed 24-bit value from three bytes, with shifts and masks. */
  function ReadI24(x: nat, y: nat, z: nat): int
    requires x < 256 && y < 256 && z < 256
  {
    AsI32(SignExtended(Word24(Octet(x), Octet(y), Octet(z))))
  }

  lemma ReadI24Value(x: nat, y: nat, z: nat)
    requires x < 256 && y < 256 && z < 256
    ensures var v := 65536 * x + 256 * y + z; ReadI24(x, y, z) == if v >= 0x80_0000 then v - 0x100_0000 else v
  {
    hide AsI32, SignExtended, Word24, Octet;
    OctetValue(x);
    OctetValue(y);
    OctetValue(z);
    SignExtensionIsSigned(Octet(x), Octet(y), Octet(z));
  }
}
