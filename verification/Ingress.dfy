/** What ingress stores, and the one fact every cached frame satisfies. */
module Ingress {
  import opened Bytes
  import opened TtlStore
  import opened Cache
  import opened Frames
  import Shard

  /** A frame with the magic, under the flow key in its own bytes 40..56. */
  predicate KeyedBy(raw: seq<byte>, k: seq<byte>)
  {
    Framed(raw) && k == KeyBytes(raw)
  }

  /** Every entry in the frame space is keyed by itself. */
  ghost predicate SelfKeyed(m: Entries)
  {
    forall k :: Full(Space.Frames, k) in m ==> KeyedBy(m[Full(Space.Frames, k)].value, k)
  }

  lemma FrameWriteSelfKeyed(m: Entries, raw: seq<byte>, expiry: int)
    requires SelfKeyed(m) && Framed(raw)
    ensures SelfKeyed(m[Full(Space.Frames, KeyBytes(raw)) := Entry(raw, expiry)])
  {
    var key := Full(Space.Frames, KeyBytes(raw));
    var m' := m[key := Entry(raw, expiry)];
    forall k | Full(Space.Frames, k) in m'
      ensures KeyedBy(m'[Full(Space.Frames, k)].value, k)
    {
      if Full(Space.Frames, k) == key { FullInjective(Space.Frames, k, Space.Frames, KeyBytes(raw)); }
    }
  }

  /** Two states of a backend that hold the same frames. */
  ghost predicate SameFrames(m: Entries, m': Entries)
  {
    forall k :: (Full(Space.Frames, k) in m <==> Full(Space.Frames, k) in m')
                && (Full(Space.Frames, k) in m ==> m[Full(Space.Frames, k)] == m'[Full(Space.Frames, k)])
  }

  /** What the other two views do to the backend cannot touch the frame space. */
  lemma OtherSpaceSameFrames(m: Entries, s: Space, op: Op, now: int, link: Link)
    requires s != Space.Frames
    ensures SameFrames(m, Effect(m, Within(s, op), now, link))
    ensures SelfKeyed(m) ==> SelfKeyed(Effect(m, Within(s, op), now, link))
  {
    var m' := Effect(m, Within(s, op), now, link);
    forall k
      ensures Full(Space.Frames, k) in m' <==> Full(Space.Frames, k) in m
      ensures Full(Space.Frames, k) in m ==> m'[Full(Space.Frames, k)] == m[Full(Space.Frames, k)]
    {
      if Full(Space.Frames, k) == Full(s, op.key) { FullInjective(Space.Frames, k, s, op.key); }
    }
  }

  function ClassTtl(kind: Kind, ttls: Ttls, origVer: byte): int
  {
    match kind
    case Block => ttls.block
    case Subtree => ttls.subtree
    case Anchor => ttls.anchor
    case Beef => ttls.beef
    case Fragment => ttls.For(origVer)
    case _ => ttls.tx
  }

  /** The TTL a frame is stored with, or nothing when ingress drops it. */
  function StoreTtl(codec: Codec, ttls: Ttls, raw: seq<byte>): Option<int>
  {
    if KindOf(raw) == Bundle then
      var b := ReadBundleKey(raw);
      if b.Ok? && b.seqNum != 0 then Some(ttls.tx) else None
    else
      var h := codec.decode(KindOf(raw), raw);
      if h.None? || h.value.seqNum == 0 then None
      else Some(ClassTtl(KindOf(raw), ttls, h.value.origVer))
  }

  /** A frame ingress keeps carries a nonzero sequence number at offset 48. */
  lemma KeptIsStamped(codec: Codec, ttls: Ttls, raw: seq<byte>)
    requires Faithful(codec) && StoreTtl(codec, ttls, raw).Some?
    ensures Framed(raw) && U64(raw[48..56]) != 0
  {
  }

  /** The cache after a datagram's frame has been handed to ingress. */
  function Stored(codec: Codec, ttls: Ttls, tee: bool, m: Entries, pkt: seq<byte>, now: int, link: Link): Entries
  {
    var f := Shard.Frame(pkt, tee);
    if Framed(f) && StoreTtl(codec, ttls, f).Some?
    then Effect(m, Within(Space.Frames, Set(KeyBytes(f), f, StoreTtl(codec, ttls, f).value)), now, link) else m
  }

  class Worker {
    const cache: Store
    const codec: Codec
    const ttls: Ttls
    const tee: bool

    constructor (cache: Store, codec: Codec, ttls: Ttls, tee: bool)
      requires cache.space == Space.Frames && Faithful(codec)
      ensures this.cache == cache && this.codec == codec && this.ttls == ttls && this.tee == tee
    {
      this.cache, this.codec, this.ttls, this.tee := cache, codec, ttls, tee;
    }

    /** Decode by class; keep the key fields of a stamped frame. */
    method Decode(raw: seq<byte>) returns (key: Option<seq<byte>>, ttl: int)
      requires Faithful(codec)
      ensures key.Some? <==> StoreTtl(codec, ttls, raw).Some?
      ensures key.Some? ==> Framed(raw) && key.value == KeyBytes(raw) && StoreTtl(codec, ttls, raw) == Some(ttl)
    {
      var hashKey, seqNum: uint64 := 0, 0;
      key, ttl := None, ttls.tx;
      var kind := KindOf(raw);
      if kind == Bundle {
        var b := ReadBundleKey(raw);
        if !b.Ok? {
          return;
        }
        hashKey, seqNum := b.hashKey, b.seqNum;
      } else {
        var h := codec.decode(kind, raw);
        if h.None? {
          return;
        }
        hashKey, seqNum := h.value.hashKey, h.value.seqNum;
        match kind
        case Block => ttl := ttls.block;
        case Subtree => ttl := ttls.subtree;
        case Anchor => ttl := ttls.anchor;
        case Beef => ttl := ttls.beef;
        case Fragment => ttl := ttls.For(h.value.origVer);
        case _ =>
      }
      if seqNum == 0 {
        return;
      }
      FieldsMakeKey(raw);
      key := Some(FlowKey(hashKey, seqNum));
    }

    /** Store a stamped frame under its flow key; drop anything else. */
    method ProcessFrame(raw: seq<byte>, now: int, link: Link)
      requires Faithful(codec) && cache.space == Space.Frames && SelfKeyed(cache.backend.entries)
      modifies cache.backend
      ensures SelfKeyed(cache.backend.entries)
      ensures StoreTtl(codec, ttls, raw).None? ==> cache.backend.entries == old(cache.backend.entries)
      ensures StoreTtl(codec, ttls, raw).Some? ==>
                && Framed(raw)
                && cache.backend.entries ==
                   Effect(old(cache.backend.entries),
                          Within(Space.Frames, Set(KeyBytes(raw), raw, StoreTtl(codec, ttls, raw).value)), now, link)
    {
      var key, ttl := Decode(raw);
      if key.None? {
        return;
      }
      FrameWriteSelfKeyed(cache.backend.entries, raw, now + ttl);
      var err := cache.Put(key.value, raw, ttl, now, link);
    }

    /** Hand a datagram's frame on, unwrapping a tee envelope first. */
    method Handle(pkt: seq<byte>, now: int, link: Link)
      requires Faithful(codec) && cache.space == Space.Frames && SelfKeyed(cache.backend.entries)
      modifies cache.backend
      ensures SelfKeyed(cache.backend.entries)
      ensures cache.backend.entries == Stored(codec, ttls, tee, old(cache.backend.entries), pkt, now, link)
    {
      if tee && Shard.IsEncap(pkt) {
        if |pkt| < Shard.TEE_HEADER {
          return;  // malformed envelope
        }
        ProcessFrame(pkt[Shard.TEE_HEADER..], now, link);
        return;
      }
      ProcessFrame(pkt, now, link);
    }
  }
}
