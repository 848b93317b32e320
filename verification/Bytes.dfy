/** Bytes, big-endian integers and the flow key every cached frame carries. */
module Bytes {
  type byte = bv8
  type uint64 = bv64

  function U16(b: seq<byte>): bv16
    requires |b| == 2
  {
    ((b[0] as bv16) << 8) | (b[1] as bv16)
  }

  function U32(b: seq<byte>): bv32
    requires |b| == 4
  {
    ((b[0] as bv32) << 24) | ((b[1] as bv32) << 16) | ((b[2] as bv32) << 8) | (b[3] as bv32)
  }

  function U64(b: seq<byte>): uint64
    requires |b| == 8
  {
    ((b[0] as bv64) << 56) | ((b[1] as bv64) << 48) | ((b[2] as bv64) << 40) | ((b[3] as bv64) << 32)
    | ((b[4] as bv64) << 24) | ((b[5] as bv64) << 16) | ((b[6] as bv64) << 8) | (b[7] as bv64)
  }

  function ByteAt(x: uint64, shift: bv8): byte
    requires shift < 64
  {
    ((x >> shift) & 0xFF) as bv8
  }

  function Put64(x: uint64): (b: seq<byte>)
    ensures |b| == 8 && U64(b) == x
  {
    [ByteAt(x, 56), ByteAt(x, 48), ByteAt(x, 40), ByteAt(x, 32),
     ByteAt(x, 24), ByteAt(x, 16), ByteAt(x, 8), ByteAt(x, 0)]
  }

  lemma Put64OfU64(b: seq<byte>)
    requires |b| == 8
    ensures Put64(U64(b)) == b
  {
  }

  /** HashKey and SeqNum, big-endian: the 16 bytes a frame is stored and claimed under. */
  function FlowKey(hashKey: uint64, seqNum: uint64): (k: seq<byte>)
    ensures |k| == 16 && U64(k[..8]) == hashKey && U64(k[8..]) == seqNum
  {
    var a, b := Put64(hashKey), Put64(seqNum);
    assert (a + b)[..8] == a && (a + b)[8..] == b;
    a + b
  }

  /** Reading the two fields of a 16-byte key and writing them back gives the key. */
  lemma FlowKeyOfFields(k: seq<byte>)
    requires |k| == 16
    ensures FlowKey(U64(k[..8]), U64(k[8..])) == k
  {
    Put64OfU64(k[..8]);
    Put64OfU64(k[8..]);
    assert k == k[..8] + k[8..];
  }

  /** The first byte counts most. */
  lemma BigEndian()
    ensures U16([0x01, 0x02]) == 0x0102 && U32([0x01, 0x02, 0x03, 0x04]) == 0x0102_0304
    ensures U64([0x01, 0x02, 0x03, 0x04, 0x05, 0x06, 0x07, 0x08]) == 0x0102_0304_0506_0708
  {
  }
}
