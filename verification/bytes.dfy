/**
 * Machine integers and their little-endian byte images, as `BinaryWriter` writes them
 * and as `BitConverter.GetBytes` produces them on a little-endian host.
 */
module Bytes {

  type byte = x: int | 0 <= x < 0x100
  type int16 = x: int | -0x8000 <= x < 0x8000
  type int32 = x: int | -0x8000_0000 <= x < 0x8000_0000

  /** C#'s unchecked narrowing to `int`: keep the low 32 bits, read them as two's complement. */
  function WrapInt32(v: int): (r: int32)
    ensures (r - v) % 0x1_0000_0000 == 0
  {
    var u := v % 0x1_0000_0000;
    if u < 0x8000_0000 then u else u - 0x1_0000_0000
  }

  /** C#'s `(short)` cast: keep the low 16 bits, read them as two's complement. */
  function WrapInt16(v: int): (r: int16)
    ensures (r - v) % 0x1_0000 == 0
  {
    var u := v % 0x1_0000;
    if u < 0x8000 then u else u - 0x1_0000
  }

  /** The two bytes, low byte first, of the 16-bit two's-complement pattern of `v`. */
  function Le16(v: int): (b: seq<byte>)
    ensures |b| == 2
    ensures ReadU16(b, 0) == v % 0x1_0000
  {
    var u := v % 0x1_0000;
    assert u == (u / 0x100) * 0x100 + u % 0x100;
    [u % 0x100, u / 0x100]
  }

  /** The four bytes, lowest first, of the 32-bit two's-complement pattern of `v`. */
  function Le32(v: int): (b: seq<byte>)
    ensures |b| == 4
    ensures ReadU32(b, 0) == v % 0x1_0000_0000
  {
    var u := v % 0x1_0000_0000;
    var q1 := u / 0x100;
    var q2 := q1 / 0x100;
    var q3 := q2 / 0x100;
    assert u == q1 * 0x100 + u % 0x100;
    assert q1 == q2 * 0x100 + q1 % 0x100;
    assert q2 == q3 * 0x100 + q2 % 0x100;
    assert u / 0x1_0000 == q2;
    assert u / 0x100_0000 == q3;
    [u % 0x100, (u / 0x100) % 0x100, (u / 0x1_0000) % 0x100, u / 0x100_0000]
  }

  /** The unsigned 16-bit little-endian value stored at `at`. */
  function ReadU16(b: seq<byte>, at: nat): (v: nat)
    requires at + 2 <= |b|
    ensures v < 0x1_0000
  {
    b[at] as int + 0x100 * b[at + 1] as int
  }

  /** The unsigned 32-bit little-endian value stored at `at`. */
  function ReadU32(b: seq<byte>, at: nat): (v: nat)
    requires at + 4 <= |b|
    ensures v < 0x1_0000_0000
  {
    b[at] as int + 0x100 * b[at + 1] as int + 0x1_0000 * b[at + 2] as int + 0x100_0000 * b[at + 3] as int
  }

  /** Reads a 16-bit pattern back as a signed `short`. */
  function AsInt16(u: nat): (r: int16)
    requires u < 0x1_0000
    ensures (r - u) % 0x1_0000 == 0
  {
    if u < 0x8000 then u else u - 0x1_0000
  }

  /** A `short` survives being written as two bytes and read back. */
  lemma Int16RoundTrip(v: int16)
    ensures AsInt16(ReadU16(Le16(v), 0)) == v
  {
  }

  /** The bytes written depend only on the value modulo 2^32. */
  lemma Le32Congruent(a: int, b: int)
    requires (a - b) % 0x1_0000_0000 == 0
    ensures Le32(a) == Le32(b)
  {
    var q := (a - b) / 0x1_0000_0000;
    assert a == b + q * 0x1_0000_0000;
    assert a % 0x1_0000_0000 == b % 0x1_0000_0000;
  }

  /** The bytes written depend only on the value modulo 2^16. */
  lemma Le16Congruent(a: int, b: int)
    requires (a - b) % 0x1_0000 == 0
    ensures Le16(a) == Le16(b)
  {
    var q := (a - b) / 0x1_0000;
    assert a == b + q * 0x1_0000;
    assert a % 0x1_0000 == b % 0x1_0000;
  }

  lemma SmallU32(x: int)
    requires 0 <= x < 0x1_0000_0000
    ensures x % 0x1_0000_0000 == x
  {
  }

  lemma SmallU16(x: int)
    requires 0 <= x < 0x1_0000
    ensures x % 0x1_0000 == x
  {
  }

  /** Values equal modulo 2^32 are equal modulo 2^16. */
  lemma Mod32To16(a: int, b: int)
    requires (a - b) % 0x1_0000_0000 == 0
    ensures (a - b) % 0x1_0000 == 0
  {
    var q := (a - b) / 0x1_0000_0000;
    assert a - b == (q * 0x1_0000) * 0x1_0000;
  }

  /**
   * `Encoding.ASCII.GetBytes`: one byte per character, non-ASCII characters
   * replaced by '?'.
   */
  function Ascii(s: string): (b: seq<byte>)
    ensures |b| == |s|
  {
    seq(|s|, i requires 0 <= i < |s| => if s[i] as int < 0x80 then s[i] as int else '?' as int)
  }
}
