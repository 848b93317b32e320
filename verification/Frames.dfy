/** The cached frame classes: where their flow key sits, what they decode to, where they go. */
module Frames {
  import opened Bytes
  import opened TtlStore

  const MAGIC: seq<byte> := [0xE3, 0xE1, 0xF3, 0xE8]
  const PROTO_VER: seq<byte> := [0x02, 0xBF]
  const HEADER_SIZE := 92
  const BUNDLE_HEADER := 66

  const VER_FRAGMENT: byte := 0x03
  const VER_BLOCK: byte := 0x04
  const VER_SUBTREE: byte := 0x05
  const VER_ANCHOR: byte := 0x06
  const VER_BUNDLE: byte := 0x08
  const VER_BEEF: byte := 0x09

  const MSG_NACK: byte := 0x10
  const MSG_MISS: byte := 0x11
  const MSG_ACK: byte := 0x12
  const MSG_THROTTLED: byte := 0x13

  datatype Kind = Block | Subtree | Anchor | Bundle | Beef | Fragment | Tx

  predicate HasVer(raw: seq<byte>, v: byte)
  {
    |raw| >= 7 && raw[6] == v
  }

  /** The class ingress treats a datagram as, in the order it asks. */
  function KindOf(raw: seq<byte>): Kind
  {
    if HasVer(raw, VER_BLOCK) then Block
    else if HasVer(raw, VER_SUBTREE) then Subtree
    else if HasVer(raw, VER_ANCHOR) then Anchor
    else if HasVer(raw, VER_BUNDLE) then Bundle
    else if HasVer(raw, VER_BEEF) then Beef
    else if HasVer(raw, VER_FRAGMENT) then Fragment
    else Tx
  }

  /** The fields the endpoint reads from a decoded frame. */
  datatype Header = Header(hashKey: uint64, seqNum: uint64, origVer: byte, txID: seq<byte>, subtreeID: seq<byte>)

  /** The frame decoders, one per class; what they accept is theirs to say. */
  datatype Codec = Codec(decode: (Kind, seq<byte>) -> Option<Header>)

  /**
   What every decoder demands and reads: a full header that starts with the magic and
   has no control message's type as its version, HashKey at 40, SeqNum at 48, and a
   fragment's id slots at 8 and 56.
   */
  ghost predicate Faithful(codec: Codec)
  {
    forall kind, raw :: codec.decode(kind, raw).Some? ==> Reads(kind, raw, codec.decode(kind, raw).value)
  }

  predicate Reads(kind: Kind, raw: seq<byte>, h: Header)
  {
    && |raw| >= HEADER_SIZE && Framed(raw) && h.hashKey == U64(raw[40..48]) && h.seqNum == U64(raw[48..56])
    && (kind == Fragment ==> h.txID == raw[8..40] && h.subtreeID == raw[56..88])
  }

  /** Long enough for a flow key, and not to be taken for an ACK or a MISS. */
  predicate Framed(raw: seq<byte>)
  {
    |raw| >= BUNDLE_HEADER && raw[..4] == MAGIC && raw[6] != MSG_MISS && raw[6] != MSG_ACK
  }

  /** The bytes a frame is keyed by. */
  function KeyBytes(raw: seq<byte>): (k: seq<byte>)
    requires |raw| >= 56
    ensures |k| == 16
  {
    raw[40..56]
  }

  lemma FieldsMakeKey(raw: seq<byte>)
    requires |raw| >= 56
    ensures FlowKey(U64(raw[40..48]), U64(raw[48..56])) == KeyBytes(raw)
  {
    var k := KeyBytes(raw);
    assert k[..8] == raw[40..48] && k[8..] == raw[48..56];
    FlowKeyOfFields(k);
  }

  datatype BundleKey = TooShort | BadMagic | BadVer | Truncated | Ok(hashKey: uint64, seqNum: uint64, members: bv16)

  /** A bundle's flow key and member count from its header alone. */
  function ReadBundleKey(raw: seq<byte>): (r: BundleKey)
    ensures r.Ok? ==> Framed(raw) && HasVer(raw, VER_BUNDLE)
    ensures r.Ok? ==> |raw| - BUNDLE_HEADER >= U32(raw[62..66]) as int
    ensures r.Ok? ==> FlowKey(r.hashKey, r.seqNum) == KeyBytes(raw)
  {
    if |raw| < BUNDLE_HEADER then TooShort
    else if raw[0..4] != MAGIC then BadMagic
    else if raw[6] != VER_BUNDLE then BadVer
    else if |raw| - BUNDLE_HEADER < U32(raw[62..66]) as int then Truncated
    else
      FieldsMakeKey(raw);
      Ok(U64(raw[40..48]), U64(raw[48..56]), U16(raw[60..62]))
  }

  datatype Ttls = Ttls(tx: int, block: int, subtree: int, anchor: int, beef: int) {
    function For(ver: byte): int
    {
      if ver == VER_BLOCK then block
      else if ver == VER_SUBTREE then subtree
      else if ver == VER_ANCHOR then anchor
      else if ver == VER_BEEF then beef
      else tx
    }
  }
}
