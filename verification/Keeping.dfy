/** Which datagrams ingress keeps, under which key and for how long, told from their bytes. */
module Keeping {
  import opened Bytes
  import opened TtlStore
  import opened Frames
  import opened Shard
  import Ingress

  /** The decoder a version byte is handed to; a bundle (0x08) has none. */
  predicate Named(v: byte, kind: Kind)
  {
    match kind
    case Fragment => v == 0x03
    case Block => v == 0x04
    case Subtree => v == 0x05
    case Anchor => v == 0x06
    case Bundle => false
    case Beef => v == 0x09
    case Tx => v !in {0x03, 0x04, 0x05, 0x06, 0x08, 0x09}
  }

  /** The cache with the frame under its own bytes 40..56 for `ttl`. */
  function With(m: Entries, f: seq<byte>, now: int, ttl: int): Entries
    requires |f| >= 56
  {
    m[TtlStore.Full(Space.Frames, f[40..56]) := Entry(f, now + ttl)]
  }

  /** The time of a class, by its version byte. */
  predicate LastsFor(ttls: Ttls, v: byte, ttl: int)
  {
    && (v == 0x04 ==> ttl == ttls.block) && (v == 0x05 ==> ttl == ttls.subtree) && (v == 0x06 ==> ttl == ttls.anchor)
    && (v == 0x09 ==> ttl == ttls.beef) && (v !in {0x04, 0x05, 0x06, 0x09} ==> ttl == ttls.tx)
  }

  lemma TimeOfClass(codec: Codec, ttls: Ttls, f: seq<byte>, kind: Kind, h: Header, ttl: int)
    requires Faithful(codec) && |f| >= 56 && Named(f[6], kind) && codec.decode(kind, f) == Some(h)
    requires U64(f[48..56]) != 0 && LastsFor(ttls, if f[6] == 0x03 then h.origVer else f[6], ttl)
    ensures Framed(f) && Ingress.StoreTtl(codec, ttls, f) == Some(ttl)
  {
    assert KindOf(f) == kind;
    assert Reads(kind, f, h);
  }

  /**
   A frame its class's decoder accepts and a proxy has stamped is kept, bare or enveloped,
   for the time of its class; a fragment for the time of its original's class.
   */
  lemma StampedIsKept(codec: Codec, ttls: Ttls, tee: bool, m: Entries, pkt: seq<byte>, f: seq<byte>, kind: Kind,
                      h: Header, now: int, ttl: int)
    requires Faithful(codec) && Carries(pkt, tee, f) && |f| >= 56 && Named(f[6], kind)
    requires codec.decode(kind, f) == Some(h) && U64(f[48..56]) != 0
    requires LastsFor(ttls, if f[6] == 0x03 then h.origVer else f[6], ttl)
    ensures Ingress.Stored(codec, ttls, tee, m, pkt, now, Works) == With(m, f, now, ttl)
  {
    CarriedFrame(pkt, tee, f);
    TimeOfClass(codec, ttls, f, kind, h, ttl);
  }

  /** A bundle's header: its magic and version, and no more bytes announced than there are. */
  predicate BundleOk(f: seq<byte>)
  {
    && |f| >= 66 && f[..4] == [0xE3, 0xE1, 0xF3, 0xE8] && f[6] == 0x08
    && U32(f[62..66]) as int <= |f| - 66
  }

  /** A stamped bundle is kept for a transaction's time on the strength of its header alone. */
  lemma BundleIsKept(codec: Codec, ttls: Ttls, tee: bool, m: Entries, pkt: seq<byte>, f: seq<byte>, now: int)
    requires Carries(pkt, tee, f) && BundleOk(f) && U64(f[48..56]) != 0
    ensures Ingress.Stored(codec, ttls, tee, m, pkt, now, Works) == With(m, f, now, ttls.tx)
  {
    CarriedFrame(pkt, tee, f);
    assert f[0..4] == f[..4];
  }

  /** Anything else leaves the cache as it was: unstamped, not decoded, or no frame at all. */
  lemma OtherIsDropped(codec: Codec, ttls: Ttls, tee: bool, m: Entries, pkt: seq<byte>, now: int, link: Link)
    requires Faithful(codec)
    requires forall f :: Carries(pkt, tee, f) ==>
               || |f| < 56 || U64(f[48..56]) == 0
               || (!BundleOk(f) && forall kind :: Named(f[6], kind) ==> codec.decode(kind, f).None?)
    ensures Ingress.Stored(codec, ttls, tee, m, pkt, now, link) == m
  {
    var f := Frame(pkt, tee);
    if Framed(f) {
      assert Carries(pkt, tee, f);
      assert f[0..4] == f[..4];
      assert f[6] != 0x08 ==> Named(f[6], KindOf(f));
    }
  }

  /** Over a link that does not deliver, nothing is kept. */
  lemma LostIsDropped(codec: Codec, ttls: Ttls, tee: bool, m: Entries, pkt: seq<byte>, now: int)
    ensures Ingress.Stored(codec, ttls, tee, m, pkt, now, Lost) == m
  {
  }
}
