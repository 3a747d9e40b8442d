/**
 * `ByteBuffer.wrap(address).getInt()`: the four bytes of an IPv4 address
 * read as one big-endian, two's complement 32-bit Java `int`.
 */
module Ipv4 {
  import opened Bson

  const TwoTo24 := 0x100_0000
  const TwoTo16 := 0x1_0000
  const TwoTo8 := 0x100
  const TwoTo31 := 0x8000_0000
  const TwoTo32 := 0x1_0000_0000

  /** A Java `int`. */
  type Int32 = i: int | -TwoTo31 <= i < TwoTo31

  /** The unsigned big-endian value of the four bytes. */
  function Word(b: IPv4Bytes): (u: int)
    ensures 0 <= u < TwoTo32
  {
    b[0] * TwoTo24 + b[1] * TwoTo16 + b[2] * TwoTo8 + b[3]
  }

  /** `getInt()`: the word, reinterpreted as a signed 32-bit value. */
  function Pack(b: IPv4Bytes): Int32 {
    var u := Word(b);
    if u < TwoTo31 then u else u - TwoTo32
  }

  /** The four bytes `putInt(i)` would write: the inverse of `Pack`. */
  function Unpack(i: Int32): IPv4Bytes {
    var u := if i < 0 then i + TwoTo32 else i;
    [u / TwoTo24, (u / TwoTo16) % 256, (u / TwoTo8) % 256, u % 256]
  }

  /** Splitting a word into its four base-256 digits. */
  lemma {:induction false} Digits(u: int, b0: int, b1: int, b2: int, b3: int)
    requires 0 <= b0 < 256 && 0 <= b1 < 256 && 0 <= b2 < 256 && 0 <= b3 < 256
    requires u == b0 * TwoTo24 + b1 * TwoTo16 + b2 * TwoTo8 + b3
    ensures u / TwoTo24 == b0
    ensures (u / TwoTo16) % 256 == b1
    ensures (u / TwoTo8) % 256 == b2
    ensures u % 256 == b3
  {
    var r8 := b0 * TwoTo16 + b1 * TwoTo8 + b2;
    assert u == r8 * 256 + b3;
    assert u / 256 == r8 && u % 256 == b3;
    var r16 := b0 * TwoTo8 + b1;
    assert r8 == r16 * 256 + b2;
    assert r8 % 256 == b2;
    assert u == r16 * TwoTo16 + (b2 * 256 + b3);
    assert u / TwoTo16 == r16;
    assert r16 % 256 == b1;
    assert u == b0 * TwoTo24 + (b1 * TwoTo16 + b2 * 256 + b3);
    assert u / TwoTo24 == b0;
  }

  /** Unpacking the `peer.ipv4` tag gives back the address bytes. */
  lemma {:induction false} UnpackPack(b: IPv4Bytes)
    ensures Unpack(Pack(b)) == b
  {
    Digits(Word(b), b[0], b[1], b[2], b[3]);
  }

  /** Every Java `int` is the packing of exactly one address. */
  lemma {:induction false} PackUnpack(i: Int32)
    ensures Pack(Unpack(i)) == i
  {
    var u := if i < 0 then i + TwoTo32 else i;
    var b0, b1, b2, b3 := u / TwoTo24, (u / TwoTo16) % 256, (u / TwoTo8) % 256, u % 256;
    assert u == b0 * TwoTo24 + b1 * TwoTo16 + b2 * TwoTo8 + b3 by {
      assert u == (u / 256) * 256 + b3;
      assert u / 256 == (u / TwoTo16) * 256 + b2;
      assert u / TwoTo16 == b0 * 256 + b1;
    }
  }

  /** Packing is injective: distinct addresses give distinct tags. */
  lemma {:induction false} PackInjective(a: IPv4Bytes, b: IPv4Bytes)
    requires Pack(a) == Pack(b)
    ensures a == b
  {
    UnpackPack(a);
    UnpackPack(b);
  }

  /** The sign of the tag is the top bit of the first byte. */
  lemma {:induction false} PackSign(b: IPv4Bytes)
    ensures Pack(b) < 0 <==> b[0] >= 128
  {
  }

  /** Loopback packs to a positive `int`; an address at or above 128.0.0.0 to a negative one. */
  lemma PackExamples()
    ensures Pack([127, 0, 0, 1]) == 2130706433
    ensures Pack([192, 168, 0, 1]) == -1062731775
    ensures Pack([255, 255, 255, 255]) == -1
  {
  }
}
