/** The request and response datagrams of the NACK protocol. */
module Wire {
  import opened Bytes
  import opened TtlStore
  import opened Frames

  const NACK_SIZE := 64
  const RESPONSE_SIZE := 16
  const FLAG_PROXIED: byte := 0x01
  const ACK_MULTICAST: byte := 0x01
  const ACK_UNICAST: byte := 0x02

  datatype Addr = Addr(ip: seq<byte>, port: bv16)

  // ── NACK ──────────────────────────────────────────────────────────────────

  datatype Nack = Nack(flags: byte, hashKey: uint64, startSeq: uint64, endSeq: uint64, subtree: seq<byte>) {
    predicate Proxied()
    {
      flags & FLAG_PROXIED != 0
    }
  }

  /** The request in a datagram that has the size, magic and type of one. */
  function ReadNack(d: seq<byte>): Option<Nack>
  {
    if |d| < NACK_SIZE || d[0..4] != MAGIC || d[6] != MSG_NACK then None
    else Some(Nack(d[7], U64(d[8..16]), U64(d[16..24]), U64(d[24..32]), d[32..64]))
  }

  function NackBytes(n: Nack): (d: seq<byte>)
    requires |n.subtree| == 32
    ensures |d| == NACK_SIZE
  {
    MAGIC + PROTO_VER + [MSG_NACK, n.flags] + Put64(n.hashKey) + Put64(n.startSeq) + Put64(n.endSeq) + n.subtree
  }

  /** A request reads back as it was written. */
  lemma NackReadsBack(n: Nack)
    requires |n.subtree| == 32
    ensures ReadNack(NackBytes(n)) == Some(n)
  {
    var d := NackBytes(n);
    assert d[0..4] == MAGIC && d[6] == MSG_NACK && d[7] == n.flags;
    assert d[8..16] == Put64(n.hashKey) && d[16..24] == Put64(n.startSeq);
    assert d[24..32] == Put64(n.endSeq) && d[32..64] == n.subtree;
  }

  // ── responses ─────────────────────────────────────────────────────────────

  datatype Response = Miss | Ack(flags: byte, seqNum: uint64) | Throttled(bucket: byte, seqNum: uint64)

  function ResponseWith(kind: byte, flags: byte, seqNum: uint64): (d: seq<byte>)
    ensures |d| == RESPONSE_SIZE && d[..4] == MAGIC && d[6] == kind && d[7] == flags
  {
    MAGIC + PROTO_VER + [kind, flags] + Put64(seqNum)
  }

  function ResponseBytes(r: Response): seq<byte>
  {
    match r
    case Miss => ResponseWith(MSG_MISS, 0, 0)
    case Ack(flags, seqNum) => ResponseWith(MSG_ACK, flags, seqNum)
    case Throttled(bucket, seqNum) => ResponseWith(MSG_THROTTLED, bucket & 0x0F, seqNum)
  }

  /** What a requester reads from a response. */
  function ReadResponse(d: seq<byte>): Option<Response>
  {
    if |d| != RESPONSE_SIZE || d[..4] != MAGIC then None
    else if d[6] == MSG_MISS then Some(Miss)
    else if d[6] == MSG_ACK then Some(Ack(d[7], U64(d[8..16])))
    else if d[6] == MSG_THROTTLED then Some(Throttled(d[7], U64(d[8..16])))
    else None
  }

  /** A response reads back as it was meant; a bucket keeps its low nibble. */
  lemma ResponseReadsBack(r: Response)
    ensures ReadResponse(ResponseBytes(r)) ==
            Some(if r.Throttled? then Throttled(r.bucket & 0x0F, r.seqNum) else r)
  {
    var d := ResponseBytes(r);
    if !r.Miss? { assert d[8..16] == Put64(r.seqNum); }
  }

  // ── when a repair is acknowledged ─────────────────────────────────────────

  /** The flags of an ACK: one bit for each kind of send that went out. */
  function AckFlags(multicast: bool, unicast: bool): byte
  {
    (if multicast then ACK_MULTICAST else 0) | (if unicast then ACK_UNICAST else 0)
  }

  lemma FlagsTellSends(multicast: bool, unicast: bool)
    ensures AckFlags(multicast, unicast) & ACK_MULTICAST != 0 <==> multicast
    ensures AckFlags(multicast, unicast) & ACK_UNICAST != 0 <==> unicast
    ensures AckFlags(multicast, unicast) == 0 <==> !multicast && !unicast
  {
  }

  /** How an endpoint repairs and answers. */
  datatype Modes = Modes(multicast: bool, unicast: bool, suppressAck: bool, suppressMiss: bool, throttle: bool) {
    /** Whether the frame is to be unicast to the requester. */
    predicate Unicasts(proxied: bool, known: bool)
    {
      (unicast || proxied) && known
    }

    /** Whether a served request is acknowledged: never on a send that produced nothing. */
    predicate Acks(proxied: bool, known: bool, flags: byte)
    {
      !suppressAck && known && (flags != 0 || !(multicast || Unicasts(proxied, known)))
    }
  }

  // ── filling a datagram buffer in place ────────────────────────────────────

  /** Copy `s` into the buffer at `at`. */
  method Fill(buf: array<byte>, at: nat, s: seq<byte>)
    requires at + |s| <= buf.Length
    modifies buf
    ensures buf[..at] == old(buf[..at])
    ensures buf[at..at + |s|] == s
    ensures buf[at + |s|..] == old(buf[at + |s|..])
  {
    forall i | 0 <= i < |s| { buf[at + i] := s[i]; }
  }

  /** Build the request datagram field by field. */
  method BuildNack(n: Nack) returns (buf: array<byte>)
    requires |n.subtree| == 32
    ensures fresh(buf) && buf[..] == NackBytes(n)
  {
    buf := new byte[NACK_SIZE];
    Fill(buf, 0, MAGIC + PROTO_VER + [MSG_NACK, n.flags]);
    FillTail(buf, 8, Put64(n.hashKey));
    FillTail(buf, 16, Put64(n.startSeq));
    FillTail(buf, 24, Put64(n.endSeq));
    FillTail(buf, 32, n.subtree);
    assert buf[..] == buf[..64];
  }

  /** Build a response datagram field by field. */
  method BuildResponse(kind: byte, flags: byte, seqNum: uint64) returns (buf: array<byte>)
    ensures fresh(buf) && buf[..] == ResponseWith(kind, flags, seqNum)
  {
    buf := new byte[RESPONSE_SIZE];
    Fill(buf, 0, MAGIC + PROTO_VER + [kind, flags]);
    FillTail(buf, 8, Put64(seqNum));
    assert buf[..] == buf[..16];
  }

  /** Extend the written prefix of the buffer. */
  method FillTail(buf: array<byte>, at: nat, s: seq<byte>)
    requires at + |s| <= buf.Length
    modifies buf
    ensures buf[..at + |s|] == old(buf[..at]) + s
  {
    Fill(buf, at, s);
    assert buf[..at + |s|] == buf[..at] + buf[at..at + |s|];
  }
}
