/** What becomes of a request, told from the bytes of its datagram and of the answer. */
module Requests {
  import opened Bytes
  import opened TtlStore
  import opened Frames
  import opened Wire
  import opened Server
  import Answers
  import Ingress
  import Proxy
  import Retransmit

  // ── reading the request ───────────────────────────────────────────────────

  predicate IsNack(d: seq<byte>)
  {
    |d| >= 64 && d[..4] == [0xE3, 0xE1, 0xF3, 0xE8] && d[6] == 0x10
  }

  /** A request for one frame: the two sequence numbers are the same. */
  predicate IsRequest(d: seq<byte>)
  {
    IsNack(d) && d[16..24] == d[24..32]
  }

  /** Bit 0 of byte 7: a proxy of another domain sent the request. */
  predicate IsFlagged(d: seq<byte>)
    requires |d| >= 64
  {
    d[7] & 0x01 != 0
  }

  lemma U64Injective(a: seq<byte>, b: seq<byte>)
    requires |a| == 8 && |b| == 8
    ensures U64(a) == U64(b) <==> a == b
  {
    Put64OfU64(a);
    Put64OfU64(b);
  }

  /** The fields of a request are at their offsets. */
  lemma RequestReads(d: seq<byte>)
    ensures IsNack(d) <==> ReadNack(d).Some?
    ensures IsRequest(d) <==> Wanted(d)
    ensures IsNack(d) ==>
              var n := ReadNack(d).value;
              && n.hashKey == U64(d[8..16]) && n.startSeq == U64(d[16..24]) && n.subtree == d[32..64]
              && (n.Proxied() <==> IsFlagged(d)) && FlowKey(n.hashKey, n.startSeq) == d[8..24]
  {
    if IsNack(d) {
      assert d[0..4] == d[..4];
      U64Injective(d[16..24], d[24..32]);
      Put64OfU64(d[8..16]);
      Put64OfU64(d[16..24]);
      assert d[8..24] == d[8..16] + d[16..24];
    }
  }

  // ── how far a request gets ────────────────────────────────────────────────

  /** The entry the request asks for is there, and has not expired when it is looked up. */
  predicate Cached(d: seq<byte>, w: World, b: Books)
    requires |d| >= 64
  {
    Live(b.cached, Full(Space.Frames, d[8..24]), w.lookupAt)
  }

  /** None of the three tiers before the lookup refused it. */
  predicate PastTiers(stage: Stage)
  {
    stage.Refused? ==> stage.tier == GroupTier
  }

  lemma NotARequest(cfg: Setup, d: seq<byte>, src: Option<Addr>, w: World, stage: Stage, b: Books, c: Books)
    requires |w.writes| == |w.order| && Processed(cfg, d, src, w, stage, b, c)
    ensures stage == Malformed <==> !IsNack(d)
    ensures stage == Ranged <==> IsNack(d) && !IsRequest(d)
    ensures !IsRequest(d) ==> c == b
  {
    RequestReads(d);
  }

  lemma LookedUpStage(cfg: Setup, n: Nack, src: Option<Addr>, w: World, stage: Stage, b: Books, c: Books)
    requires |w.writes| == |w.order| && LookedUp(cfg, n, src, w, stage, b, c)
    ensures PastTiers(stage)
    ensures stage == CacheFailed <==> w.lookup != Works
    ensures stage == Missed <==> w.lookup == Works && !Live(b.cached, FrameKey(n), w.lookupAt)
    ensures stage == Refused(GroupTier) <==>
              w.lookup == Works && Live(b.cached, FrameKey(n), w.lookupAt) && cfg.grouped && !w.groupOk
    ensures stage == SendFailed || stage.Served? <==>
              w.lookup == Works && Live(b.cached, FrameKey(n), w.lookupAt) && (cfg.grouped ==> w.groupOk)
  {
  }

  /** The lookup a request past the tiers comes to. */
  lemma IsLookedUp(cfg: Setup, d: seq<byte>, src: Option<Addr>, w: World, stage: Stage, b: Books, c: Books)
    returns (mid: Books)
    requires |w.writes| == |w.order| && Processed(cfg, d, src, w, stage, b, c) && IsRequest(d) && PastTiers(stage)
    ensures ReadNack(d).Some? && LookedUp(cfg, ReadNack(d).value, src, w, stage, mid, c)
    ensures mid == b.(tiers := mid.tiers) && w.ipOk
  {
    RequestReads(d);
    mid := b.(tiers := Limits.Judged(b.tiers, cfg.settings, AskOf(ReadNack(d).value, src, w)));
  }

  /**
   How a request ends is decided by its bytes 8..24, the cache and the world: an IP bucket
   refuses it or not; past the tiers a failed lookup ends it, the live entry under those
   bytes makes it a hit, and nothing else does.
   */
  lemma StageIff(cfg: Setup, d: seq<byte>, src: Option<Addr>, w: World, stage: Stage, b: Books, c: Books)
    requires |w.writes| == |w.order| && Processed(cfg, d, src, w, stage, b, c)
    ensures stage == Refused(IpTier) <==> IsRequest(d) && !w.ipOk
    ensures IsRequest(d) && PastTiers(stage) ==>
              && (stage == CacheFailed <==> w.lookup != Works)
              && (stage == Missed <==> w.lookup == Works && !Cached(d, w, b))
              && (stage == Refused(GroupTier) <==> w.lookup == Works && Cached(d, w, b) && cfg.grouped && !w.groupOk)
              && (stage == SendFailed || stage.Served? <==>
                    w.lookup == Works && Cached(d, w, b) && (cfg.grouped ==> w.groupOk))
  {
    RequestReads(d);
    if IsRequest(d) && PastTiers(stage) {
      var mid := IsLookedUp(cfg, d, src, w, stage, b, c);
      LookedUpStage(cfg, ReadNack(d).value, src, w, stage, mid, c);
    }
  }

  // ── what a miss starts ────────────────────────────────────────────────────

  /** The request missed, no proxy sent it, and there is a proxy here with room for it. */
  predicate StartsRecovery(cfg: Setup, d: seq<byte>, w: World, stage: Stage, b: Books)
  {
    && IsRequest(d) && PastTiers(stage) && w.lookup == Works && !Cached(d, w, b) && !IsFlagged(d)
    && cfg.depth.Some? && |b.queue| < cfg.depth.value
  }

  lemma LookedUpQueues(cfg: Setup, n: Nack, src: Option<Addr>, w: World, stage: Stage, b: Books, c: Books)
    requires |w.writes| == |w.order| && LookedUp(cfg, n, src, w, stage, b, c)
    ensures c.queue == b.queue +
            if w.lookup == Works && !Live(b.cached, FrameKey(n), w.lookupAt) && !n.Proxied()
               && cfg.depth.Some? && |b.queue| < cfg.depth.value
            then [Proxy.Job(n.hashKey, n.startSeq, n.subtree, src)] else []
  {
  }

  /** A job for the gap in the request's own bytes is queued by such a miss, and by nothing else. */
  lemma MissStartsRecovery(cfg: Setup, d: seq<byte>, src: Option<Addr>, w: World, stage: Stage, b: Books, c: Books)
    requires |w.writes| == |w.order| && Processed(cfg, d, src, w, stage, b, c)
    ensures c.queue == b.queue +
            if StartsRecovery(cfg, d, w, stage, b)
            then [Proxy.Job(U64(d[8..16]), U64(d[16..24]), d[32..64], src)] else []
  {
    RequestReads(d);
    if IsRequest(d) && PastTiers(stage) {
      var mid := IsLookedUp(cfg, d, src, w, stage, b, c);
      LookedUpQueues(cfg, ReadNack(d).value, src, w, stage, mid, c);
    } else if stage.Refused? {
      Answers.UnrepairedIsQuiet(cfg, d, src, w, stage, b, c);
    }
  }

  // ── what the requester is told ────────────────────────────────────────────

  /** The 16 bytes of a response. */
  function Datagram(kind: byte, flags: byte, num: seq<byte>): seq<byte>
  {
    [0xE3, 0xE1, 0xF3, 0xE8, 0x02, 0xBF, kind, flags] + num
  }

  const NO_NUMBER: seq<byte> := [0, 0, 0, 0, 0, 0, 0, 0]

  /** The bucket a refusal names; the flood tier names none. */
  function BucketOf(tier: Tier): Option<byte>
  {
    match tier
    case IpTier => None
    case SequenceTier => Some(2)
    case ChainTier => Some(3)
    case GroupTier => Some(4)
  }

  /** The bytes sent back, for how far the request got. */
  function Told(stage: Stage, modes: Modes, flagged: bool, num: seq<byte>): Option<seq<byte>>
  {
    match stage
    case Refused(tier) =>
      if modes.throttle && BucketOf(tier).Some? then Some(Datagram(0x13, BucketOf(tier).value, num)) else None
    case Missed => if modes.suppressMiss then None else Some(Datagram(0x11, 0, NO_NUMBER))
    case Served(multicast, unicast) =>
      var bare := !modes.multicast && !modes.unicast && !flagged;
      if modes.suppressAck || (!multicast && !unicast && !bare) then None
      else Some(Datagram(0x12, if multicast then (if unicast then 3 else 1) else if unicast then 2 else 0, num))
    case _ => None
  }

  lemma ResponseLayout(r: Response)
    ensures ResponseBytes(r) ==
            match r
            case Miss => Datagram(0x11, 0, NO_NUMBER)
            case Ack(flags, seqNum) => Datagram(0x12, flags, Put64(seqNum))
            case Throttled(bucket, seqNum) => Datagram(0x13, bucket & 0x0F, Put64(seqNum))
  {
    assert Put64(0) == NO_NUMBER;
  }

  lemma AckIsTold(multicast: bool, unicast: bool, n: Nack, modes: Modes)
    ensures var r := ResponseFor(Served(multicast, unicast), n, true, modes);
            Told(Served(multicast, unicast), modes, n.Proxied(), Put64(n.startSeq)) ==
            if r.Some? then Some(ResponseBytes(r.value)) else None
  {
    FlagsTellSends(multicast, unicast);
    ResponseLayout(Ack(AckFlags(multicast, unicast), n.startSeq));
  }

  lemma ResponseIsTold(stage: Stage, n: Nack, modes: Modes)
    ensures var r := ResponseFor(stage, n, true, modes);
            Told(stage, modes, n.Proxied(), Put64(n.startSeq)) ==
            if r.Some? then Some(ResponseBytes(r.value)) else None
  {
    if stage.Served? {
      AckIsTold(stage.multicast, stage.unicast, n, modes);
    } else {
      var r := ResponseFor(stage, n, true, modes);
      if r.Some? { ResponseLayout(r.value); }
    }
  }

  lemma RepliesAreTold(stage: Stage, n: Nack, src: Option<Addr>, modes: Modes)
    ensures var told := Told(stage, modes, n.Proxied(), Put64(n.startSeq));
            Replies(stage, n, src, modes) == if src.Some? && told.Some? then [(told.value, src.value)] else []
  {
    ResponseIsTold(stage, n, modes);
  }

  /**
   The response to a request, byte for byte: a MISS for a miss, a THROTTLED with the bucket
   of the tier that refused, an ACK with a bit for each send that went out, each with the
   request's sequence number, to the address it came from; and no other datagram.
   */
  lemma AnswerInBytes(cfg: Setup, d: seq<byte>, src: Option<Addr>, w: World, stage: Stage, b: Books, c: Books)
    requires |w.writes| == |w.order| && Processed(cfg, d, src, w, stage, b, c)
    ensures !IsRequest(d) ==> c.out == b.out
    ensures IsRequest(d) ==>
              var told := Told(stage, cfg.modes, IsFlagged(d), d[16..24]);
              c.out == b.out + if src.Some? && told.Some? then [(told.value, src.value)] else []
  {
    RequestReads(d);
    Answers.OutGrows(cfg, d, src, w, stage, b, c);
    if IsRequest(d) {
      Put64OfU64(d[16..24]);
      RepliesAreTold(stage, ReadNack(d).value, src, cfg.modes);
    }
  }

  // ── what a hit sends ──────────────────────────────────────────────────────

  /** The frame cached under the request's bytes 8..24. */
  function FrameFor(d: seq<byte>, b: Books): seq<byte>
    requires |d| >= 64 && Full(Space.Frames, d[8..24]) in b.cached
  {
    b.cached[Full(Space.Frames, d[8..24])].value
  }

  ghost predicate IsHit(cfg: Setup, d: seq<byte>, src: Option<Addr>, w: World, stage: Stage, b: Books, c: Books)
  {
    && |w.writes| == |w.order| && Processed(cfg, d, src, w, stage, b, c) && Ingress.SelfKeyed(b.cached)
    && (stage == SendFailed || stage.Served?)
  }

  lemma HitSends(cfg: Setup, d: seq<byte>, src: Option<Addr>, w: World, stage: Stage, b: Books, c: Books)
    returns (mid: Books)
    requires IsHit(cfg, d, src, w, stage, b, c)
    ensures IsRequest(d) && Cached(d, w, b) && ReadNack(d).Some?
    ensures var raw := FrameFor(d, b);
            && |raw| >= 56 && raw[40..56] == d[8..24] && mid.claims == b.claims && mid.wire == b.wire
            && mid.unicasts == b.unicasts && Sends(cfg, raw, ReadNack(d).value, src, w, stage, mid, c)
  {
    NotARequest(cfg, d, src, w, stage, b, c);
    StageIff(cfg, d, src, w, stage, b, c);
    RequestReads(d);
    var n := ReadNack(d).value;
    Answers.RepairedIffHit(cfg, d, src, w, stage, b, c);
    Answers.RepairedSends(cfg, d, src, w, stage, b, c, n);
    mid := Answers.Entered(cfg, n, src, w, b, FrameFor(d, b));
  }

  /** The `n` writes put there are of the one frame, one on each socket of `order`. */
  ghost predicate OnEach(before: seq<Retransmit.Write>, after: seq<Retransmit.Write>, raw: seq<byte>, group: bv32,
                         order: seq<nat>)
  {
    && before <= after && |after| == |before| + |order|
    && forall k :: 0 <= k < |order| ==> after[|before| + k] == Retransmit.Write(raw, group, order[k])
  }

  lemma FreeSends(cfg: Setup, raw: seq<byte>, n: Nack, src: Option<Addr>, w: World, stage: Stage, b: Books, c: Books,
                  group: bv32)
    requires |w.writes| == |w.order| && Sends(cfg, raw, n, src, w, stage, b, c) && |raw| >= 56
    requires cfg.modes.multicast && w.claim == Works && forall i :: 0 <= i < |w.writes| ==> w.writes[i]
    requires cfg.net.claiming ==> !Live(b.claims, Full(Space.Dedup, raw[40..56]), w.claimAt)
    requires GroupOf(cfg, raw) == Some(group)
    ensures stage.Served? && stage.multicast && OnEach(b.wire, c.wire, raw, group, w.order)
    ensures c.claims == if cfg.net.claiming
                        then b.claims[Full(Space.Dedup, raw[40..56]) := Entry(CLAIMED, w.claimAt + cfg.net.window)]
                        else b.claims
  {
    Retransmit.FreeFrameIsSent(cfg.net, b.claims, raw, w.claimAt, w.order, w.writes, group);
    var put := cfg.net.Puts(b.claims, raw, Retransmit.TxIDOf(raw), w.claimAt, w.claim, w.order, w.writes);
    assert c.wire == b.wire + put;
  }

  lemma QuietSends(cfg: Setup, raw: seq<byte>, n: Nack, src: Option<Addr>, w: World, stage: Stage, b: Books, c: Books)
    requires |w.writes| == |w.order| && Sends(cfg, raw, n, src, w, stage, b, c) && |raw| >= 56
    requires !cfg.modes.multicast
             || (cfg.net.claiming && Live(b.claims, Full(Space.Dedup, raw[40..56]), w.claimAt))
    ensures stage.Served? && !stage.multicast && c.wire == b.wire && c.claims == b.claims
  {
    if cfg.modes.multicast {
      Retransmit.HeldFrameIsNotSent(cfg.net, b.claims, raw, w.claimAt, w.claim, w.order, w.writes);
    }
  }

  /**
   A hit in multicast mode, on a key that no sibling holds, with a backend that answers, a
   group for the frame and sockets that take it, puts the cached frame on every socket and
   claims the key for the window.
   */
  lemma FreeHitIsMulticast(cfg: Setup, d: seq<byte>, src: Option<Addr>, w: World, stage: Stage, b: Books, c: Books,
                           group: bv32)
    requires IsHit(cfg, d, src, w, stage, b, c) && |d| >= 64 && Full(Space.Frames, d[8..24]) in b.cached
    requires cfg.modes.multicast && w.claim == Works && forall i :: 0 <= i < |w.writes| ==> w.writes[i]
    requires cfg.net.claiming ==> !Live(b.claims, Full(Space.Dedup, d[8..24]), w.claimAt)
    requires GroupOf(cfg, FrameFor(d, b)) == Some(group)
    ensures stage.Served? && stage.multicast && OnEach(b.wire, c.wire, FrameFor(d, b), group, w.order)
    ensures c.claims == if cfg.net.claiming
                        then b.claims[Full(Space.Dedup, d[8..24]) := Entry(CLAIMED, w.claimAt + cfg.net.window)]
                        else b.claims
  {
    var mid := HitSends(cfg, d, src, w, stage, b, c);
    FreeSends(cfg, FrameFor(d, b), ReadNack(d).value, src, w, stage, mid, c, group);
  }

  /** Without multicast mode, or while a sibling holds the key, a hit puts nothing there and claims nothing. */
  lemma HeldHitIsNotMulticast(cfg: Setup, d: seq<byte>, src: Option<Addr>, w: World, stage: Stage, b: Books, c: Books)
    requires IsHit(cfg, d, src, w, stage, b, c) && |d| >= 64
    requires !cfg.modes.multicast || (cfg.net.claiming && Live(b.claims, Full(Space.Dedup, d[8..24]), w.claimAt))
    ensures stage.Served? && !stage.multicast && c.wire == b.wire && c.claims == b.claims
  {
    var mid := HitSends(cfg, d, src, w, stage, b, c);
    QuietSends(cfg, FrameFor(d, b), ReadNack(d).value, src, w, stage, mid, c);
  }

  lemma FailedSends(cfg: Setup, raw: seq<byte>, n: Nack, src: Option<Addr>, w: World, stage: Stage, b: Books, c: Books,
                    k: nat)
    requires |w.writes| == |w.order| && Sends(cfg, raw, n, src, w, stage, b, c) && |raw| >= 56
    requires cfg.modes.multicast && w.claim == Works && k <= |w.writes|
    requires cfg.net.claiming ==> !Live(b.claims, Full(Space.Dedup, raw[40..56]), w.claimAt)
    requires if GroupOf(cfg, raw).None? then k == 0
             else k < |w.writes| && !w.writes[k] && forall i :: 0 <= i < k ==> w.writes[i]
    ensures stage == SendFailed && c.unicasts == b.unicasts
    ensures GroupOf(cfg, raw).None? ==> c.wire == b.wire
    ensures GroupOf(cfg, raw).Some? ==> OnEach(b.wire, c.wire, raw, GroupOf(cfg, raw).value, w.order[..k])
  {
    assert cfg.net.Wins(b.claims, raw, w.claimAt, w.claim);
    if GroupOf(cfg, raw).Some? {
      var g, reach := GroupOf(cfg, raw).value, Retransmit.Reach(w.writes);
      assert reach == k;
      assert c.wire == b.wire + Retransmit.Copies(raw, g, w.order, k);
      forall i | 0 <= i < k
        ensures Retransmit.Copies(raw, g, w.order, k)[i] == Retransmit.Write(raw, g, w.order[..k][i])
      {
        Retransmit.CopiesAt(raw, g, w.order, k, i);
      }
    }
  }

  /**
   A multicast that cannot be routed, or that a socket refuses, ends the request: the copies
   before the refusal stand, and the requester is sent neither the frame nor an answer.
   */
  lemma FailedHitEnds(cfg: Setup, d: seq<byte>, src: Option<Addr>, w: World, stage: Stage, b: Books, c: Books, k: nat)
    requires IsHit(cfg, d, src, w, stage, b, c) && |d| >= 64 && Full(Space.Frames, d[8..24]) in b.cached
    requires cfg.modes.multicast && w.claim == Works && k <= |w.writes|
    requires cfg.net.claiming ==> !Live(b.claims, Full(Space.Dedup, d[8..24]), w.claimAt)
    requires if GroupOf(cfg, FrameFor(d, b)).None? then k == 0
             else k < |w.writes| && !w.writes[k] && forall i :: 0 <= i < k ==> w.writes[i]
    ensures stage == SendFailed && c.unicasts == b.unicasts && c.out == b.out
    ensures var g := GroupOf(cfg, FrameFor(d, b));
            if g.None? then c.wire == b.wire else OnEach(b.wire, c.wire, FrameFor(d, b), g.value, w.order[..k])
  {
    var mid := HitSends(cfg, d, src, w, stage, b, c);
    FailedSends(cfg, FrameFor(d, b), ReadNack(d).value, src, w, stage, mid, c, k);
    AnswerInBytes(cfg, d, src, w, stage, b, c);
  }

  /** A served hit is unicast to whoever asked, in unicast mode or when a proxy did, and not otherwise. */
  lemma HitIsUnicast(cfg: Setup, d: seq<byte>, src: Option<Addr>, w: World, stage: Stage, b: Books, c: Books)
    requires IsHit(cfg, d, src, w, stage, b, c) && stage.Served?
    ensures IsRequest(d) && Cached(d, w, b)
    ensures stage.unicast <==> (cfg.modes.unicast || IsFlagged(d)) && src.Some? && w.unicastOk
    ensures c.unicasts == b.unicasts + if stage.unicast then [(FrameFor(d, b), src.value)] else []
  {
    var mid := HitSends(cfg, d, src, w, stage, b, c);
    RequestReads(d);
  }

  // ── the request a proxy sends ─────────────────────────────────────────────

  /** A recovery's request, byte for byte: flagged, with the gap's key and its number twice. */
  lemma ProxiedBytes(j: Proxy.Job)
    requires |j.subtree| == 32
    ensures NackBytes(Proxy.AskFor(j)) ==
            [0xE3, 0xE1, 0xF3, 0xE8, 0x02, 0xBF, 0x10, 0x01] + FlowKey(j.hashKey, j.seqNum) + Put64(j.seqNum)
            + j.subtree
  {
  }
}
