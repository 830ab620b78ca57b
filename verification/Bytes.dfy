/** Byte strings, little-endian integers and the script-number decoding of the emulator. */
module Bytes {
  type byte = x: int | 0 <= x < 256
  type bytes = seq<byte>

  const MAX_U64: int := 0xFFFF_FFFF_FFFF_FFFF

  function LittleEndian(b: bytes): (n: nat) {
    if b == [] then 0 else b[0] + 256 * LittleEndian(b[1..])
  }

  function ToLittleEndian(n: nat, width: nat): (b: bytes)
    ensures |b| == width
  {
    if width == 0 then [] else [n % 256] + ToLittleEndian(n / 256, width - 1)
  }

  function Pow256(width: nat): (p: nat)
    ensures p >= 1
  {
    if width == 0 then 1 else 256 * Pow256(width - 1)
  }

  lemma {:induction false} LittleEndianBound(b: bytes)
    ensures LittleEndian(b) < Pow256(|b|)
  {
    if b != [] {
      LittleEndianBound(b[1..]);
    }
  }

  /** Writing back what was read gives the same bytes. */
  lemma {:induction false} ReadThenWrite(b: bytes)
    ensures ToLittleEndian(LittleEndian(b), |b|) == b
  {
    if b != [] {
      ReadThenWrite(b[1..]);
      var rest := LittleEndian(b[1..]);
      assert (b[0] + 256 * rest) % 256 == b[0] && (b[0] + 256 * rest) / 256 == rest;
      assert b == [b[0]] + b[1..];
    }
  }

  /** Reading back what was written gives the same number, when it fits. */
  lemma {:induction false} WriteThenRead(n: nat, width: nat)
    requires n < Pow256(width)
    ensures LittleEndian(ToLittleEndian(n, width)) == n
  {
    if width != 0 {
      WriteThenRead(n / 256, width - 1);
      var b := ToLittleEndian(n, width);
      assert b[1..] == ToLittleEndian(n / 256, width - 1);
    }
  }

  lemma U64Width()
    ensures Pow256(8) == MAX_U64 + 1
    ensures Pow256(1) == 256
  {
    assert Pow256(2) == 65536;
    assert Pow256(4) == 65536 * 65536 by { assert Pow256(3) == 256 * 65536; }
    assert Pow256(6) == 65536 * 65536 * 65536 by { assert Pow256(5) == 256 * Pow256(4); }
    assert Pow256(7) == 256 * Pow256(6);
  }

  /** Sign-magnitude little-endian: the top bit of the last byte is the sign. */
  function ScriptNumber(b: bytes): int {
    if b == [] then 0
    else
      var last := b[|b| - 1];
      if last < 128 then LittleEndian(b)
      else -(LittleEndian(b[..|b| - 1] + [last - 128]) as int)
  }

  /** A zero sign byte makes any byte string read as an unsigned integer. */
  lemma {:induction false} SignByteReadsUnsigned(b: bytes)
    ensures ScriptNumber(b + [0]) == LittleEndian(b)
  {
    AppendZero(b);
  }

  lemma {:induction false} AppendZero(b: bytes)
    ensures LittleEndian(b + [0]) == LittleEndian(b)
  {
    if b == [] {
      assert b + [0] == [0] && [0][1..] == [];
    } else {
      AppendZero(b[1..]);
      assert (b + [0])[1..] == b[1..] + [0];
    }
  }
}
