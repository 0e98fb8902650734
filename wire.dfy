/** The fixed-width integers of the management node and the bytes they occupy in
    memory. The host is taken to be little-endian (the x86 and ARM targets the
    system is built for), so `htonl`/`ntohl` are a byte swap. */
module Wire {

  type byte = x: int | 0 <= x < 0x100
  type int8 = x: int | -0x80 <= x < 0x80
  type int32 = x: int | -0x8000_0000 <= x < 0x8000_0000
  type uint32 = x: int | 0 <= x < 0x1_0000_0000

  /** The byte an `int8_t` occupies (two's complement). */
  function ByteOfInt8(t: int8): byte {
    if t < 0 then t + 0x100 else t
  }

  /** The `int8_t` a byte holds when read back through an `int8_t *`. */
  function Int8OfByte(b: byte): int8 {
    if b < 0x80 then b else b - 0x100
  }

  /** An `int` converted to `int8_t`: wraps modulo 256, as the compilers the source targets do. */
  function WrapInt8(x: int): (t: int8)
    ensures -0x80 <= x < 0x80 ==> t == x
    ensures (t - x) % 0x100 == 0
  {
    (x + 0x80) % 0x100 - 0x80
  }

  /** The bit pattern of an `int32_t`, and back. */
  function Uint32OfInt32(x: int32): uint32 {
    if x < 0 then x + 0x1_0000_0000 else x
  }

  function Int32OfUint32(u: uint32): int32 {
    if u < 0x8000_0000 then u else u - 0x1_0000_0000
  }

  /** The four bytes a 32-bit word occupies in host (little-endian) memory, lowest address first. */
  function LittleEndian(u: uint32): (bs: seq<byte>)
    ensures |bs| == 4
  {
    var q1 := u / 0x100;
    var q2 := q1 / 0x100;
    [u % 0x100, q1 % 0x100, q2 % 0x100, q2 / 0x100]
  }

  /** The word read from four bytes of host memory. */
  function FromLittleEndian(bs: seq<byte>): uint32
    requires |bs| == 4
  {
    bs[0] as int + 0x100 * (bs[1] as int + 0x100 * (bs[2] as int + 0x100 * bs[3] as int))
  }

  function Reverse4(bs: seq<byte>): (r: seq<byte>)
    requires |bs| == 4
    ensures |r| == 4 && r[3] == bs[0] && r[2] == bs[1] && r[1] == bs[2] && r[0] == bs[3]
  {
    [bs[3], bs[2], bs[1], bs[0]]
  }

  /** Network byte order: most significant byte first. */
  function BigEndian(u: uint32): (bs: seq<byte>)
    ensures |bs| == 4
  {
    Reverse4(LittleEndian(u))
  }

  /** `htonl` (and `ntohl`) on a little-endian host: the word whose memory image is
      the argument's bytes in network order. */
  function ByteSwap(u: uint32): uint32 {
    FromLittleEndian(BigEndian(u))
  }

  lemma LittleEndianRoundTrip(u: uint32)
    ensures FromLittleEndian(LittleEndian(u)) == u
  {
    var q1 := u / 0x100;
    var q2 := q1 / 0x100;
    assert q2 % 0x100 + 0x100 * (q2 / 0x100) == q2;
    assert q1 % 0x100 + 0x100 * q2 == q1;
    assert u % 0x100 + 0x100 * q1 == u;
  }

  lemma FromLittleEndianRoundTrip(bs: seq<byte>)
    requires |bs| == 4
    ensures LittleEndian(FromLittleEndian(bs)) == bs
  {
    var u := FromLittleEndian(bs);
    var q1: int := bs[1] as int + 0x100 * (bs[2] as int + 0x100 * bs[3] as int);
    var q2: int := bs[2] as int + 0x100 * bs[3] as int;
    assert u == bs[0] as int + 0x100 * q1;
    assert u / 0x100 == q1 && u % 0x100 == bs[0];
    assert q1 / 0x100 == q2 && q1 % 0x100 == bs[1];
    assert q2 / 0x100 == bs[3] && q2 % 0x100 == bs[2];
  }

  /** `htonl(x)` sits in memory as `x`'s bytes in network order. */
  lemma ByteSwapImage(u: uint32)
    ensures LittleEndian(ByteSwap(u)) == BigEndian(u)
  {
    FromLittleEndianRoundTrip(BigEndian(u));
  }

  /** `ntohl(htonl(x)) == x`. */
  lemma ByteSwapInvolutive(u: uint32)
    ensures ByteSwap(ByteSwap(u)) == u
  {
    ByteSwapImage(u);
    assert BigEndian(ByteSwap(u)) == LittleEndian(u);
    LittleEndianRoundTrip(u);
  }

  /** Reading a word stored in network order through `ntohl` gives its big-endian value. */
  lemma ByteSwapReadsNetworkOrder(bs: seq<byte>)
    requires |bs| == 4
    ensures ByteSwap(FromLittleEndian(bs)) == FromLittleEndian(Reverse4(bs))
  {
    FromLittleEndianRoundTrip(bs);
  }
}
