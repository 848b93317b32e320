/** What a requester may conclude from the response to its NACK. */
module Answers {
  import opened Bytes
  import opened TtlStore
  import opened Frames
  import opened Wire
  import opened Limits
  import opened Retransmit
  import opened Server
  import Ingress

  /** The request reached the cache, found its frame there and passed the group tier. */
  predicate Hit(cfg: Setup, n: Nack, src: Option<Addr>, w: World, b: Books)
  {
    && n.startSeq == n.endSeq
    && Judge(b.tiers, cfg.settings, AskOf(n, src, w)) == Admitted
    && w.lookup == Works && Live(b.cached, FrameKey(n), w.lookupAt)
    && (cfg.grouped ==> w.groupOk)
  }

  /** Hits, and nothing else, are repaired. */
  lemma RepairedIffHit(cfg: Setup, d: seq<byte>, src: Option<Addr>, w: World, stage: Stage, b: Books, c: Books)
    requires |w.writes| == |w.order| && Processed(cfg, d, src, w, stage, b, c)
    ensures stage == SendFailed || stage.Served? <==> ReadNack(d).Some? && Hit(cfg, ReadNack(d).value, src, w, b)
  {
  }

  /** Every other request leaves the wire, the cache and the claims alone. */
  lemma UnrepairedIsQuiet(cfg: Setup, d: seq<byte>, src: Option<Addr>, w: World, stage: Stage, b: Books, c: Books)
    requires |w.writes| == |w.order| && Processed(cfg, d, src, w, stage, b, c)
    requires stage != SendFailed && !stage.Served?
    ensures c == b.(tiers := c.tiers, charged := c.charged, out := c.out, queue := c.queue)
  {
  }

  /** The books once a hit has been through the tiers. */
  ghost function Entered(cfg: Setup, n: Nack, src: Option<Addr>, w: World, b: Books, raw: seq<byte>): Books
  {
    var charge := if cfg.grouped then [(IpKey(SourceIp(src)), ChargedGroup(cfg.net.planes, raw))] else [];
    b.(tiers := Judged(b.tiers, cfg.settings, AskOf(n, src, w)), charged := b.charged + charge)
  }

  /** A repaired request is one that made the sends of the frame cached under its key. */
  lemma RepairedSends(cfg: Setup, d: seq<byte>, src: Option<Addr>, w: World, stage: Stage, b: Books, c: Books, n: Nack)
    requires |w.writes| == |w.order| && Processed(cfg, d, src, w, stage, b, c) && Ingress.SelfKeyed(b.cached)
    requires ReadNack(d) == Some(n) && Hit(cfg, n, src, w, b)
    ensures var raw := b.cached[FrameKey(n)].value;
            && Ingress.KeyedBy(raw, FlowKey(n.hashKey, n.startSeq))
            && Sends(cfg, raw, n, src, w, stage, Entered(cfg, n, src, w, b, raw), c)
            && c.out == b.out + Replies(stage, n, src, cfg.modes)
  {
    assert Ingress.KeyedBy(b.cached[FrameKey(n)].value, FlowKey(n.hashKey, n.startSeq));
  }

  // ── claims and frames ─────────────────────────────────────────────────────

  /** The two views agree where they are of one backend. */
  predicate Coherent(cfg: Setup, b: Books)
  {
    cfg.shared ==> cfg.net.claiming && b.cached == b.claims
  }

  /** The request asks for the claim on the key it wants. */
  predicate AsksClaim(cfg: Setup, d: seq<byte>, src: Option<Addr>, w: World, b: Books)
  {
    ReadNack(d).Some? && Hit(cfg, ReadNack(d).value, src, w, b) && cfg.modes.multicast && cfg.net.claiming
  }

  function ClaimFor(cfg: Setup, n: Nack): Op
  {
    SetNX(Full(Space.Dedup, FlowKey(n.hashKey, n.startSeq)), CLAIMED, cfg.net.window)
  }

  /** A request that is no hit is quiet. */
  lemma QuietUnlessHit(cfg: Setup, d: seq<byte>, src: Option<Addr>, w: World, stage: Stage, b: Books, c: Books)
    requires |w.writes| == |w.order| && Processed(cfg, d, src, w, stage, b, c)
    requires !(ReadNack(d).Some? && Hit(cfg, ReadNack(d).value, src, w, b))
    ensures c.claims == b.claims && c.cached == b.cached
  {
    RepairedIffHit(cfg, d, src, w, stage, b, c);
    UnrepairedIsQuiet(cfg, d, src, w, stage, b, c);
  }

  lemma SentClaims(cfg: Setup, raw: seq<byte>, n: Nack, src: Option<Addr>, w: World, stage: Stage, b: Books, c: Books)
    requires |w.writes| == |w.order| && Ingress.KeyedBy(raw, FlowKey(n.hashKey, n.startSeq))
    requires Sends(cfg, raw, n, src, w, stage, b, c)
    ensures c.claims == if cfg.modes.multicast && cfg.net.claiming
                        then Effect(b.claims, ClaimFor(cfg, n), w.claimAt, w.claim) else b.claims
    ensures c.cached == if cfg.modes.multicast && cfg.shared then c.claims else b.cached
  {
  }

  /**
   What a request does to the claims: a hit in multicast mode asks for the claim on the
   key it wants, whatever comes of the send; no other request touches them.
   */
  lemma ClaimsAfterRequest(cfg: Setup, d: seq<byte>, src: Option<Addr>, w: World, stage: Stage, b: Books, c: Books)
    requires |w.writes| == |w.order| && Processed(cfg, d, src, w, stage, b, c) && Ingress.SelfKeyed(b.cached)
    ensures c.claims == if AsksClaim(cfg, d, src, w, b)
                        then Effect(b.claims, ClaimFor(cfg, ReadNack(d).value), w.claimAt, w.claim) else b.claims
    ensures Coherent(cfg, b) ==> c.cached == if AsksClaim(cfg, d, src, w, b) && cfg.shared then c.claims else b.cached
  {
    if ReadNack(d).Some? && Hit(cfg, ReadNack(d).value, src, w, b) {
      var n := ReadNack(d).value;
      var raw := b.cached[FrameKey(n)].value;
      RepairedSends(cfg, d, src, w, stage, b, c, n);
      SentClaims(cfg, raw, n, src, w, stage, Entered(cfg, n, src, w, b, raw), c);
    } else {
      QuietUnlessHit(cfg, d, src, w, stage, b, c);
    }
  }

  /** Asking for a claim keeps every running claim, and enters at most the one asked for. */
  lemma ClaimKeepsOthers(m: Entries, m': Entries, asks: bool, op: Op, at: int, link: Link, k: seq<byte>)
    requires op.SetNX? && m' == if asks then Effect(m, op, at, link) else m
    ensures Live(m, k, at) ==> k in m' && m'[k] == m[k]
    ensures k in m' && !(k in m && m'[k] == m[k]) ==> asks && k == op.key && m'[k] == Entry(op.value, at + op.ttl)
  {
  }

  /** No request removes or shortens a claim that runs, nor enters one under another key. */
  lemma RunningClaimsStay(cfg: Setup, d: seq<byte>, src: Option<Addr>, w: World, stage: Stage, b: Books, c: Books,
                          k: seq<byte>)
    requires |w.writes| == |w.order| && Processed(cfg, d, src, w, stage, b, c) && Ingress.SelfKeyed(b.cached)
    ensures Live(b.claims, k, w.claimAt) ==> k in c.claims && c.claims[k] == b.claims[k]
    ensures k in c.claims && !(k in b.claims && c.claims[k] == b.claims[k]) ==>
              && AsksClaim(cfg, d, src, w, b) && c.claims[k] == Entry(CLAIMED, w.claimAt + cfg.net.window)
              && k == ClaimFor(cfg, ReadNack(d).value).key
  {
    ClaimsAfterRequest(cfg, d, src, w, stage, b, c);
    if ReadNack(d).Some? {
      ClaimKeepsOthers(b.claims, c.claims, AsksClaim(cfg, d, src, w, b), ClaimFor(cfg, ReadNack(d).value), w.claimAt,
                       w.claim, k);
    }
  }

  /** No request changes a cached frame. */
  lemma FramesStay(cfg: Setup, d: seq<byte>, src: Option<Addr>, w: World, stage: Stage, b: Books, c: Books)
    requires |w.writes| == |w.order| && Processed(cfg, d, src, w, stage, b, c)
    requires Coherent(cfg, b) && Ingress.SelfKeyed(b.cached)
    ensures Coherent(cfg, c) && Ingress.SelfKeyed(c.cached) && Ingress.SameFrames(b.cached, c.cached)
  {
    ClaimsAfterRequest(cfg, d, src, w, stage, b, c);
    if AsksClaim(cfg, d, src, w, b) {
      ClaimKeepsFrames(cfg, ReadNack(d).value, w, b, c);
    }
  }

  lemma ClaimKeepsFrames(cfg: Setup, n: Nack, w: World, b: Books, c: Books)
    requires Coherent(cfg, b) && Ingress.SelfKeyed(b.cached)
    requires c.claims == Effect(b.claims, ClaimFor(cfg, n), w.claimAt, w.claim)
    requires c.cached == if cfg.shared then c.claims else b.cached
    ensures Coherent(cfg, c) && Ingress.SelfKeyed(c.cached) && Ingress.SameFrames(b.cached, c.cached)
  {
    var op := SetNX(FlowKey(n.hashKey, n.startSeq), CLAIMED, cfg.net.window);
    Ingress.OtherSpaceSameFrames(b.claims, Space.Dedup, op, w.claimAt, w.claim);
    assert Within(Space.Dedup, op) == ClaimFor(cfg, n);
  }

  /** A completed multicast was claimed by the request that made it. */
  lemma MulticastWasClaimed(cfg: Setup, raw: seq<byte>, n: Nack, src: Option<Addr>, w: World, stage: Stage, b: Books,
                            c: Books)
    requires |w.writes| == |w.order| && Framed(raw) && Sends(cfg, raw, n, src, w, stage, b, c)
    requires stage.Served? && stage.multicast && cfg.net.claiming
    ensures !Live(b.claims, Full(Space.Dedup, KeyBytes(raw)), w.claimAt)
    ensures c.claims == b.claims[Full(Space.Dedup, KeyBytes(raw)) := Entry(CLAIMED, w.claimAt + cfg.net.window)]
  {
  }

  /**
   A request gets at most one response, and that only to the address it came from; one
   refused as a flood, malformed or asking for a range leaves no trace in the tiers and
   gets none.
   */
  lemma OneAnswerAtMost(cfg: Setup, d: seq<byte>, src: Option<Addr>, w: World, stage: Stage, b: Books, c: Books)
    requires |w.writes| == |w.order| && Processed(cfg, d, src, w, stage, b, c)
    ensures c.out == b.out || (src.Some? && exists r: Response :: c.out == b.out + [(ResponseBytes(r), src.value)])
    ensures !Wanted(d) || !w.ipOk ==> c == b
  {
    if c.out != b.out {
      var n := ReadNack(d).value;
      assert c.out == b.out + Replies(stage, n, src, cfg.modes);
      AnswersAreHonest(stage, n, src.Some?, cfg.modes);
      var r := ResponseFor(stage, n, src.Some?, cfg.modes).value;
      assert c.out == b.out + [(ResponseBytes(r), src.value)];
    }
  }

  /** The last datagram sent reads as an ACK with these flags. */
  ghost predicate Acked(b: Books, c: Books, flags: byte, seqNum: uint64)
  {
    |c.out| == |b.out| + 1 && ReadResponse(c.out[|b.out|].0) == Some(Ack(flags, seqNum))
  }

  /** The response to a request for one frame is the one its stage earns. */
  lemma OutGrows(cfg: Setup, d: seq<byte>, src: Option<Addr>, w: World, stage: Stage, b: Books, c: Books)
    requires |w.writes| == |w.order| && Processed(cfg, d, src, w, stage, b, c)
    ensures c.out == b.out + if Wanted(d) then Replies(stage, ReadNack(d).value, src, cfg.modes) else []
    ensures !Wanted(d) ==> !stage.Served?
  {
  }

  lemma RepliesAck(stage: Stage, n: Nack, src: Option<Addr>, modes: Modes, flags: byte, seqNum: uint64)
    ensures var rs := Replies(stage, n, src, modes);
            (|rs| == 1 && ReadResponse(rs[0].0) == Some(Ack(flags, seqNum))) <==>
            && stage.Served? && flags == AckFlags(stage.multicast, stage.unicast) && seqNum == n.startSeq
            && modes.Acks(n.Proxied(), src.Some?, flags)
  {
    var r := ResponseFor(stage, n, src.Some?, modes);
    if r.Some? { ResponseReadsBack(r.value); }
  }

  /** When an ACK goes out, and with which flags. */
  lemma AckIff(cfg: Setup, d: seq<byte>, src: Option<Addr>, w: World, stage: Stage, b: Books, c: Books,
               flags: byte, seqNum: uint64)
    requires |w.writes| == |w.order| && Processed(cfg, d, src, w, stage, b, c)
    ensures Acked(b, c, flags, seqNum) <==>
            && Wanted(d) && stage.Served? && seqNum == ReadNack(d).value.startSeq
            && flags == AckFlags(stage.multicast, stage.unicast)
            && !cfg.modes.suppressAck && src.Some?
            && (stage.multicast || stage.unicast
                || (!cfg.modes.multicast && !cfg.modes.unicast && !ReadNack(d).value.Proxied()))
  {
    OutGrows(cfg, d, src, w, stage, b, c);
    if Wanted(d) { RepliesAck(stage, ReadNack(d).value, src, cfg.modes, flags, seqNum); }
    if stage.Served? { FlagsTellSends(stage.multicast, stage.unicast); }
  }

  /**
   An ACK is true. It answers a hit that passed every tier; a multicast flag means this
   very request took the claim on the key it asked for and every socket took the cached
   frame; a unicast flag means that frame went to the requester; no flag means there
   was nothing to attempt.
   */
  lemma AckIsTrue(cfg: Setup, d: seq<byte>, src: Option<Addr>, w: World, stage: Stage, b: Books, c: Books,
                  flags: byte, seqNum: uint64)
    requires |w.writes| == |w.order| && Processed(cfg, d, src, w, stage, b, c) && Ingress.SelfKeyed(b.cached)
    requires Acked(b, c, flags, seqNum)
    ensures ReadNack(d).Some? && src.Some? && seqNum == ReadNack(d).value.startSeq
    ensures Hit(cfg, ReadNack(d).value, src, w, b)
    ensures var n := ReadNack(d).value;
            var raw := b.cached[FrameKey(n)].value;
            var key := FlowKey(n.hashKey, n.startSeq);
            && (flags & ACK_MULTICAST != 0 ==>
                  && GroupOf(cfg, raw).Some?
                  && c.wire == b.wire + Copies(raw, GroupOf(cfg, raw).value, w.order, |w.order|)
                  && (cfg.net.claiming ==>
                        && !Live(b.claims, Full(Space.Dedup, key), w.claimAt)
                        && c.claims == b.claims[Full(Space.Dedup, key) := Entry(CLAIMED, w.claimAt + cfg.net.window)]))
            && (flags & ACK_MULTICAST == 0 ==> c.wire == b.wire)
            && c.unicasts == b.unicasts + (if flags & ACK_UNICAST != 0 then [(raw, src.value)] else [])
            && (flags == 0 ==> !cfg.modes.multicast && !cfg.modes.unicast && !n.Proxied())
  {
    AckIff(cfg, d, src, w, stage, b, c, flags, seqNum);
    FlagsTellSends(stage.multicast, stage.unicast);
    RepairedIffHit(cfg, d, src, w, stage, b, c);
    var n := ReadNack(d).value;
    var raw := b.cached[FrameKey(n)].value;
    RepairedSends(cfg, d, src, w, stage, b, c, n);
    if stage.multicast && cfg.net.claiming {
      MulticastWasClaimed(cfg, raw, n, src, w, stage, Entered(cfg, n, src, w, b, raw), c);
    }
  }

  lemma LookedUpQueue(cfg: Setup, n: Nack, src: Option<Addr>, w: World, stage: Stage, b: Books, c: Books)
    requires |w.writes| == |w.order| && LookedUp(cfg, n, src, w, stage, b, c)
    ensures c.queue == b.queue || c.queue == b.queue + [JobOf(n, src)]
    ensures c.queue != b.queue ==> stage == Missed && !n.Proxied() && !Live(b.cached, FrameKey(n), w.lookupAt)
  {
  }

  /** Only a miss of a request no proxy sent starts a recovery, and then exactly its own. */
  lemma OnlyOpenMissEnqueues(cfg: Setup, d: seq<byte>, src: Option<Addr>, w: World, stage: Stage, b: Books, c: Books)
    requires |w.writes| == |w.order| && Processed(cfg, d, src, w, stage, b, c)
    ensures c.queue == b.queue || (Wanted(d) && c.queue == b.queue + [JobOf(ReadNack(d).value, src)])
    ensures c.queue != b.queue ==>
              && stage == Missed && !ReadNack(d).value.Proxied()
              && !Live(b.cached, FrameKey(ReadNack(d).value), w.lookupAt)
  {
    if Wanted(d) {
      var n := ReadNack(d).value;
      if Judge(b.tiers, cfg.settings, AskOf(n, src, w)) == Admitted {
        LookedUpQueue(cfg, n, src, w, stage, b.(tiers := Judged(b.tiers, cfg.settings, AskOf(n, src, w))), c);
      }
    }
  }

  /** Serving a request sends nothing upstream: whatever it starts there is left to a recovery. */
  lemma AsksNobody(cfg: Setup, d: seq<byte>, src: Option<Addr>, w: World, stage: Stage, b: Books, c: Books)
    requires |w.writes| == |w.order| && Processed(cfg, d, src, w, stage, b, c)
    ensures c.asked == b.asked
  {
  }
}
