/** Which processing goroutine a datagram goes to. */
module Shard {
  import opened Bytes

  const TEE_HEADER := 24

  /** A tee envelope starts with the magic TEE1. */
  predicate IsEncap(pkt: seq<byte>)
  {
    |pkt| >= 4 && pkt[..4] == [0x54, 0x45, 0x45, 0x31]
  }

  /** The frame inside a datagram, if the datagram is long enough to hold one. */
  function Frame(pkt: seq<byte>, tee: bool): (r: seq<byte>)
  {
    if !tee || !IsEncap(pkt) then pkt
    else if |pkt| < TEE_HEADER then [] else pkt[TEE_HEADER..]
  }

  /** The flow key a datagram's frame carries; empty when it is too short for one. */
  function KeyOf(pkt: seq<byte>, tee: bool): (k: seq<byte>)
    ensures |k| == 16 || k == []
  {
    var f := Frame(pkt, tee);
    if |f| < 56 then [] else f[40..56]
  }

  function Xor(k: uint64, x: uint64): uint64 { k ^ x }

  function Scale(x: uint64): uint64 { x * 0x9E3779B97F4A7C15 }

  function Fold(h: uint64): uint64 { h ^ (h >> 32) }

  function Mix(hashKey: uint64, seqNum: uint64): uint64
  {
    Fold(Xor(hashKey, Scale(seqNum)))
  }

  function ShardOf(pkt: seq<byte>, tee: bool): uint64
  {
    if tee && IsEncap(pkt) && |pkt| < TEE_HEADER then 0
    else
      var f := if tee && IsEncap(pkt) then pkt[TEE_HEADER..] else pkt;
      if |f| < 56 then 0 else Mix(U64(f[40..48]), U64(f[48..56]))
  }

  /** The shard is a function of the flow key alone, whatever the form it arrives in. */
  lemma SameKeySameShard(a: seq<byte>, aTee: bool, b: seq<byte>, bTee: bool)
    requires KeyOf(a, aTee) == KeyOf(b, bTee)
    ensures ShardOf(a, aTee) == ShardOf(b, bTee)
  {
    var f, g := Frame(a, aTee), Frame(b, bTee);
    if |f| >= 56 {
      assert f[40..56][..8] == f[40..48] && f[40..56][8..] == f[48..56];
      assert g[40..56][..8] == g[40..48] && g[40..56][8..] == g[48..56];
    }
  }

  /** A frame shards alike raw and enveloped, on the tee socket and on the multicast one. */
  lemma EnvelopeKeepsShard(header: seq<byte>, frame: seq<byte>, tee: bool)
    requires |header| == TEE_HEADER && IsEncap(header) && !IsEncap(frame)
    ensures ShardOf(header + frame, true) == ShardOf(frame, tee)
  {
  }

  // ── the mix can be undone ─────────────────────────────────────────────────

  /** The multiplier is odd; this is its inverse modulo 2^64. */
  function Unscale(x: uint64): uint64 { x * 0xF1DE83E19937733D }

  function Unmix(hashKey: uint64, mixed: uint64): uint64
  {
    Unscale(Xor(hashKey, Fold(mixed)))
  }

  lemma UnscaleProduct(x: uint64)
    ensures Unscale(x * 0x9E3779B97F4A7C15) == x
  {
  }

  lemma UnscaleScale(x: uint64)
    ensures Unscale(Scale(x)) == x
  {
    UnscaleProduct(x);
  }

  lemma XorBack(k: uint64, x: uint64)
    ensures Xor(k, k ^ x) == x
  {
  }

  lemma XorXor(k: uint64, x: uint64)
    ensures Xor(k, Xor(k, x)) == x
  {
    XorBack(k, x);
  }

  lemma FoldBack(h: uint64)
    ensures Fold(h ^ (h >> 32)) == h
  {
  }

  lemma FoldFold(h: uint64)
    ensures Fold(Fold(h)) == h
  {
    FoldBack(h);
  }

  /** Given the flow, the mixed value still determines the sequence number. */
  lemma UnmixMix(hashKey: uint64, seqNum: uint64)
    ensures Unmix(hashKey, Mix(hashKey, seqNum)) == seqNum
  {
    FoldFold(Xor(hashKey, Scale(seqNum)));
    XorXor(hashKey, Scale(seqNum));
    UnscaleScale(seqNum);
  }

  /** Within one flow no two sequence numbers collide before the reduction to a queue. */
  lemma MixInjective(hashKey: uint64, s: uint64, t: uint64)
    requires Mix(hashKey, s) == Mix(hashKey, t)
    ensures s == t
  {
    UnmixMix(hashKey, s);
    UnmixMix(hashKey, t);
  }

  // ── what the shard makes of a datagram ────────────────────────────────────

  /** The datagram carries the frame: bare, or on the tee socket behind a 24-byte TEE1 header. */
  predicate Carries(pkt: seq<byte>, tee: bool, f: seq<byte>)
  {
    if tee && |pkt| >= 4 && pkt[..4] == [0x54, 0x45, 0x45, 0x31] then |pkt| >= 24 && pkt[24..] == f else pkt == f
  }

  lemma CarriedFrame(pkt: seq<byte>, tee: bool, f: seq<byte>)
    requires Carries(pkt, tee, f)
    ensures Frame(pkt, tee) == f
  {
  }

  lemma ShardIsMixed(pkt: seq<byte>, tee: bool, f: seq<byte>)
    requires Carries(pkt, tee, f) && |f| >= 56
    ensures ShardOf(pkt, tee) == Mix(U64(f[40..48]), U64(f[48..56]))
  {
  }

  /**
   Two frames of one flow have different shards whenever their sequence numbers differ,
   however each of them came in.
   */
  lemma SeqNumsShardApart(a: seq<byte>, aTee: bool, f: seq<byte>, b: seq<byte>, bTee: bool, g: seq<byte>)
    requires Carries(a, aTee, f) && Carries(b, bTee, g) && |f| >= 56 && |g| >= 56
    requires f[40..48] == g[40..48] && f[48..56] != g[48..56]
    ensures ShardOf(a, aTee) != ShardOf(b, bTee)
  {
    ShardIsMixed(a, aTee, f);
    ShardIsMixed(b, bTee, g);
    if ShardOf(a, aTee) == ShardOf(b, bTee) {
      MixInjective(U64(f[40..48]), U64(f[48..56]), U64(g[48..56]));
      Put64OfU64(f[48..56]);
      Put64OfU64(g[48..56]);
      assert false;
    }
  }

  lemma MixUnmix(hashKey: uint64, mixed: uint64)
    ensures Mix(hashKey, Unmix(hashKey, mixed)) == mixed
  {
    ScaleUnscale(Xor(hashKey, Fold(mixed)));
    XorXor(hashKey, Fold(mixed));
    FoldFold(mixed);
  }

  lemma ScaleProduct(x: uint64)
    ensures Scale(x * 0xF1DE83E19937733D) == x
  {
  }

  lemma ScaleUnscale(x: uint64)
    ensures Scale(Unscale(x)) == x
  {
    ScaleProduct(x);
  }

  /** Every flow reaches every shard: some sequence number of it mixes to any given value. */
  lemma FlowReachesShard(head: seq<byte>, hashKey: uint64, tail: seq<byte>, tee: bool, shard: uint64)
    returns (seqNum: uint64)
    requires |head| == 40 && (tee ==> head[..4] != [0x54, 0x45, 0x45, 0x31])
    ensures ShardOf(head + FlowKey(hashKey, seqNum) + tail, tee) == shard
  {
    seqNum := Unmix(hashKey, shard);
    MixUnmix(hashKey, shard);
    var key, pkt := FlowKey(hashKey, seqNum), head + FlowKey(hashKey, seqNum) + tail;
    assert pkt[40..48] == key[..8] && pkt[48..56] == key[8..];
    assert pkt[..4] == head[..4];
    ShardIsMixed(pkt, tee, pkt);
  }
}
