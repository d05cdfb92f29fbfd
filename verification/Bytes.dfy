/** Fixed-width integers in bytes. */
module Bytes {
  import opened Words

  type byte = b: nat | b < 256
  type bytes = seq<byte>

  function Pow256(w: nat): (r: nat)
    ensures r > 0
  {
    if w == 0 then 1 else 256 * Pow256(w - 1)
  }

  // ---- unsigned ------------------------------------------------------------------

  function ReadBE(b: bytes): nat {
    if b == [] then 0 else 256 * ReadBE(b[..|b| - 1]) + b[|b| - 1] as nat
  }

  function WriteBE(v: nat, w: nat): (b: bytes)
    ensures |b| == w
  {
    if w == 0 then [] else WriteBE(v / 256, w - 1) + [v % 256]
  }

  function ReadLE(b: bytes): nat {
    if b == [] then 0 else b[0] as nat + 256 * ReadLE(b[1..])
  }

  function WriteLE(v: nat, w: nat): (b: bytes)
    ensures |b| == w
  {
    if w == 0 then [] else [v % 256] + WriteLE(v / 256, w - 1)
  }

  lemma Digits(low: nat, high: nat)
    requires low < 256
    ensures (256 * high + low) % 256 == low && (256 * high + low) / 256 == high
  {}

  lemma {:induction false} BigEndian(b: bytes)
    ensures ReadBE(b) < Pow256(|b|) && WriteBE(ReadBE(b), |b|) == b
  {
    if b != [] {
      var front := b[..|b| - 1];
      BigEndian(front);
      Digits(b[|b| - 1] as nat, ReadBE(front));
      assert b == front + [b[|b| - 1]];
    }
  }

  lemma {:induction false} BigEndianBack(v: nat, w: nat)
    requires v < Pow256(w)
    ensures ReadBE(WriteBE(v, w)) == v
  {
    if w > 0 {
      BigEndianBack(v / 256, w - 1);
      var b := WriteBE(v, w);
      assert b[..|b| - 1] == WriteBE(v / 256, w - 1);
    }
  }

  lemma {:induction false} LittleEndian(b: bytes)
    ensures ReadLE(b) < Pow256(|b|) && WriteLE(ReadLE(b), |b|) == b
  {
    if b != [] {
      LittleEndian(b[1..]);
      Digits(b[0] as nat, ReadLE(b[1..]));
      assert b == [b[0]] + b[1..];
    }
  }

  lemma {:induction false} LittleEndianBack(v: nat, w: nat)
    requires v < Pow256(w)
    ensures ReadLE(WriteLE(v, w)) == v
  {
    if w > 0 {
      LittleEndianBack(v / 256, w - 1);
      var b := WriteLE(v, w);
      assert b[1..] == WriteLE(v / 256, w - 1);
    }
  }

  // ---- two's complement --------------------------------------------------------------

  function AsSigned(v: nat, w: nat): int {
    if 2 * v >= Pow256(w) then v as int - Pow256(w) else v
  }

  /** The values a field of `w` bytes can carry. */
  predicate InRange(signed: bool, w: nat, x: int) {
    if signed then -(Pow256(w) as int) <= 2 * x < Pow256(w) else 0 <= x < Pow256(w)
  }

  function Interpret(signed: bool, w: nat, v: nat): int { if signed then AsSigned(v, w) else v }

  function Wire(signed: bool, w: nat, x: int): nat
    requires InRange(signed, w, x)
  {
    if x < 0 then x + Pow256(w) else x
  }

  lemma InterpretWire(signed: bool, w: nat, x: int)
    requires InRange(signed, w, x)
    ensures Wire(signed, w, x) < Pow256(w) && Interpret(signed, w, Wire(signed, w, x)) == x
  {}

  lemma WireInterpret(signed: bool, w: nat, v: nat)
    requires v < Pow256(w) && (w > 0 || !signed)
    ensures InRange(signed, w, Interpret(signed, w, v)) && Wire(signed, w, Interpret(signed, w, v)) == v
  {
    assert w > 0 ==> Pow256(w) == 2 * (128 * Pow256(w - 1));
  }

  /** The masked 24-bit reading is the two's-complement one. */
  lemma ReadI24IsSigned(x: byte, y: byte, z: byte)
    ensures ReadI24(x, y, z) == AsSigned(65536 * x + 256 * y + z, 3)
  {
    hide ReadI24;
    ReadI24Value(x, y, z);
    assert Pow256(3) == 256 * (256 * (256 * 1));
  }
}
