/** Serving one NACK: four tiers, the lookup, the repair and the answer. */
module Server {
  import opened Bytes
  import opened TtlStore
  import opened Cache
  import opened Frames
  import opened Wire
  import opened Limits
  import opened Retransmit
  import Ingress
  import Proxy

  const BUCKET_SEQUENCE: byte := 2
  const BUCKET_CHAIN: byte := 3
  const BUCKET_GROUP: byte := 4

  datatype Tier = IpTier | SequenceTier | ChainTier | GroupTier

  /** How far a request got, as the endpoint counts it. */
  datatype Stage =
    | Malformed
    | Ranged
    | Refused(tier: Tier)
    | CacheFailed
    | Missed
    | SendFailed
    | Served(multicast: bool, unicast: bool)

  /** What the world does to one request. */
  datatype World = World(ipOk: bool, groupOk: bool, seqAt: int, chainAt: int, lookupAt: int, lookup: Link,
                         claimAt: int, claim: Link, order: seq<nat>, writes: seq<bool>, unicastOk: bool)

  // ── the answer a stage earns ──────────────────────────────────────────────

  function ThrottleBucket(tier: Tier): Option<byte>
  {
    match tier
    case IpTier => None
    case SequenceTier => Some(BUCKET_SEQUENCE)
    case ChainTier => Some(BUCKET_CHAIN)
    case GroupTier => Some(BUCKET_GROUP)
  }

  /** The one response to a request, or silence. */
  function ResponseFor(stage: Stage, n: Nack, known: bool, modes: Modes): Option<Response>
  {
    match stage
    case Refused(tier) =>
      if modes.throttle && known && ThrottleBucket(tier).Some?
      then Some(Throttled(ThrottleBucket(tier).value, n.startSeq))
      else None
    case Missed => if !modes.suppressMiss && known then Some(Miss) else None
    case Served(multicast, unicast) =>
      var flags := AckFlags(multicast, unicast);
      if modes.Acks(n.Proxied(), known, flags) then Some(Ack(flags, n.startSeq)) else None
    case _ => None
  }

  /**
   An ACK goes out only for a hit that passed every tier, its two flags are exactly the
   sends that succeeded, and it carries none only where no send was to be attempted; no
   other request is acknowledged, and the flood tier is never answered at all.
   */
  lemma AnswersAreHonest(stage: Stage, n: Nack, known: bool, modes: Modes)
    ensures var r := ResponseFor(stage, n, known, modes);
            && (r.Some? ==> known && stage != Refused(IpTier))
            && (r.Some? && r.value.Ack? ==>
                  && stage.Served? && r.value.seqNum == n.startSeq
                  && (r.value.flags & ACK_MULTICAST != 0 <==> stage.multicast)
                  && (r.value.flags & ACK_UNICAST != 0 <==> stage.unicast)
                  && (r.value.flags == 0 ==> !modes.multicast && !(modes.unicast || n.Proxied())))
            && (r.Some? && r.value.Throttled? ==>
                  stage.Refused? && r.value.bucket & 0x0F == r.value.bucket && r.value.seqNum == n.startSeq)
            && (r == Some(Miss) ==> stage == Missed)
  {
  }

  /** The datagram that carries the response, and to whom. */
  function Replies(stage: Stage, n: Nack, src: Option<Addr>, modes: Modes): seq<(seq<byte>, Addr)>
  {
    var r := ResponseFor(stage, n, src.Some?, modes);
    if r.Some? && src.Some? then [(ResponseBytes(r.value), src.value)] else []
  }

  /** The tier whose refusal a verdict reports. */
  function RefusalAt(level: Level): Stage
    requires level != Admitted
  {
    Refused(match level case IP => IpTier case Sequence => SequenceTier case Chain => ChainTier)
  }

  /** A request for one frame. */
  predicate Wanted(d: seq<byte>)
  {
    ReadNack(d).Some? && ReadNack(d).value.startSeq == ReadNack(d).value.endSeq
  }

  function SourceIp(src: Option<Addr>): seq<byte>
  {
    if src.Some? then src.value.ip else UNSPECIFIED
  }

  function JobOf(n: Nack, src: Option<Addr>): Proxy.Job
  {
    Proxy.Job(n.hashKey, n.startSeq, n.subtree, src)
  }

  function AskOf(n: Nack, src: Option<Addr>, w: World): Ask
  {
    Ask(w.ipOk, SourceIp(src), n.hashKey, n.startSeq, w.seqAt, w.chainAt)
  }

  function FrameKey(n: Nack): seq<byte>
  {
    Full(Space.Frames, FlowKey(n.hashKey, n.startSeq))
  }

  // ── what a request does, from books to books ──────────────────────────────

  /** `shared` when frames and claims are kept in one backend; no `depth` when there is no proxy. */
  datatype Setup = Setup(modes: Modes, grouped: bool, settings: Settings, net: Sender, shared: bool, depth: Option<nat>)

  /**
   Everything a request may read or change. `cached` and `claims` are two views that may
   be of one backend; `charged` lists the (source, group) buckets asked, `asked` the
   requests sent upstream.
   */
  datatype Books = Books(cached: Entries, claims: Entries, wire: seq<Write>, unicasts: seq<(seq<byte>, Addr)>,
                         tiers: Tiers, charged: seq<(seq<byte>, bv32)>, out: seq<(seq<byte>, Addr)>,
                         queue: seq<Proxy.Job>, asked: seq<(Addr, seq<byte>)>)

  /** No sibling holds the claim on the frame, as far as this endpoint is told. */
  predicate MayMulticast(cfg: Setup, claims: Entries, raw: seq<byte>, w: World)
  {
    cfg.net.Wins(claims, raw, w.claimAt, w.claim)
  }

  function GroupOf(cfg: Setup, raw: seq<byte>): Option<bv32>
  {
    cfg.net.Group(raw, TxIDOf(raw))
  }

  /** The frame can be routed and every socket takes it. */
  predicate Clean(cfg: Setup, raw: seq<byte>, w: World)
  {
    cfg.net.Clean(raw, TxIDOf(raw), w.writes)
  }

  /** What the multicast of a hit, in the mode for it, leaves in the claims and on the wire. */
  function Multicasted(cfg: Setup, raw: seq<byte>, w: World, b: Books): Books
    requires |w.writes| == |w.order|
  {
    var claims := cfg.net.ClaimsAfter(b.claims, raw, w.claimAt, w.claim);
    b.(claims := claims, cached := if cfg.shared then claims else b.cached,
       wire := b.wire + cfg.net.Puts(b.claims, raw, TxIDOf(raw), w.claimAt, w.claim, w.order, w.writes))
  }

  /** The sends of a hit that passed every tier. */
  predicate Sends(cfg: Setup, raw: seq<byte>, n: Nack, src: Option<Addr>, w: World, stage: Stage, b: Books, c: Books)
    requires |w.writes| == |w.order|
  {
    var goes := cfg.modes.multicast && MayMulticast(cfg, b.claims, raw, w);
    var unicast := cfg.modes.Unicasts(n.Proxied(), src.Some?) && w.unicastOk;
    var sent := if cfg.modes.multicast then Multicasted(cfg, raw, w, b) else b;
    if goes && !Clean(cfg, raw, w) then stage == SendFailed && c == sent
    else
      && stage == Served(goes, unicast)
      && c == sent.(unicasts := b.unicasts + (if unicast then [(raw, src.value)] else []), out := c.out)
  }

  /** A request past the first three tiers. */
  predicate LookedUp(cfg: Setup, n: Nack, src: Option<Addr>, w: World, stage: Stage, b: Books, c: Books)
    requires |w.writes| == |w.order|
  {
    var key := FlowKey(n.hashKey, n.startSeq);
    var reply := Replies(stage, n, src, cfg.modes);
    if w.lookup != Works then stage == CacheFailed && c == b
    else if !Live(b.cached, Full(Space.Frames, key), w.lookupAt) then
      var queues := cfg.depth.Some? && !n.Proxied() && |b.queue| < cfg.depth.value;
      stage == Missed && c == b.(out := b.out + reply, queue := b.queue + if queues then [JobOf(n, src)] else [])
    else
      var raw := b.cached[Full(Space.Frames, key)].value;
      var charge := if cfg.grouped then [(IpKey(SourceIp(src)), ChargedGroup(cfg.net.planes, raw))] else [];
      if cfg.grouped && !w.groupOk then
        stage == Refused(GroupTier) && c == b.(out := b.out + reply, charged := b.charged + charge)
      else
        Sends(cfg, raw, n, src, w, stage, b.(charged := b.charged + charge), c) && c.out == b.out + reply
  }

  /** A whole request. */
  predicate Processed(cfg: Setup, d: seq<byte>, src: Option<Addr>, w: World, stage: Stage, b: Books, c: Books)
    requires |w.writes| == |w.order|
  {
    if ReadNack(d).None? then stage == Malformed && c == b
    else
      var n := ReadNack(d).value;
      if n.startSeq != n.endSeq then stage == Ranged && c == b
      else
        var ask := AskOf(n, src, w);
        var level := Judge(b.tiers, cfg.settings, ask);
        var judged := b.(tiers := Judged(b.tiers, cfg.settings, ask));
        if level == Admitted then LookedUp(cfg, n, src, w, stage, judged, c)
        else stage == RefusalAt(level) && c == judged.(out := b.out + Replies(stage, n, src, cfg.modes))
  }

  lemma TurnedAway(cfg: Setup, d: seq<byte>, n: Nack, src: Option<Addr>, w: World, b: Books, c: Books)
    requires |w.writes| == |w.order|
    requires ReadNack(d) == Some(n) && n.startSeq == n.endSeq
    requires Judge(b.tiers, cfg.settings, AskOf(n, src, w)) != Admitted
    requires var stage := RefusalAt(Judge(b.tiers, cfg.settings, AskOf(n, src, w)));
             c == b.(tiers := Judged(b.tiers, cfg.settings, AskOf(n, src, w)),
                     out := b.out + Replies(stage, n, src, cfg.modes))
    ensures Processed(cfg, d, src, w, RefusalAt(Judge(b.tiers, cfg.settings, AskOf(n, src, w))), b, c)
  {
  }

  lemma LetThrough(cfg: Setup, d: seq<byte>, n: Nack, src: Option<Addr>, w: World, stage: Stage, b: Books,
                   mid: Books, c: Books)
    requires |w.writes| == |w.order|
    requires ReadNack(d) == Some(n) && n.startSeq == n.endSeq
    requires Judge(b.tiers, cfg.settings, AskOf(n, src, w)) == Admitted
    requires mid == b.(tiers := Judged(b.tiers, cfg.settings, AskOf(n, src, w)))
    requires LookedUp(cfg, n, src, w, stage, mid, c)
    ensures Processed(cfg, d, src, w, stage, b, c)
  {
  }

  // ── the endpoint ──────────────────────────────────────────────────────────

  class Server {
    const cache: Store
    const retrans: Retransmitter
    const proxy: Proxy.Client?
    const modes: Modes
    const grouped: bool  // whether the group tier is on
    const settings: Settings
    var tiers: Tiers
    var charged: seq<(seq<byte>, bv32)>
    var out: seq<(seq<byte>, Addr)>  // response datagrams

    constructor (cache: Store, retrans: Retransmitter, proxy: Proxy.Client?, modes: Modes, grouped: bool,
                 settings: Settings)
      ensures this.cache == cache && this.retrans == retrans && this.proxy == proxy
      ensures this.modes == modes && this.grouped == grouped && this.settings == settings
      ensures tiers == Tiers(map[], map[]) && charged == [] && out == []
    {
      this.cache, this.retrans, this.proxy := cache, retrans, proxy;
      this.modes, this.grouped, this.settings := modes, grouped, settings;
      tiers, charged, out := Tiers(map[], map[]), [], [];
    }

    ghost function Footprint(): set<object>
    {
      {this, cache.backend} + retrans.Footprint() + if proxy == null then {} else {proxy}
    }

    ghost predicate Valid()
      reads cache.backend
    {
      && cache.space == Space.Frames && Ingress.SelfKeyed(cache.backend.entries) && retrans.Valid()
      && (proxy != null ==> proxy.Valid())
    }

    ghost function Current(): Setup
    {
      Setup(modes, grouped, settings, retrans.As(), retrans.dedup != null && retrans.dedup.backend == cache.backend,
            if proxy == null then None else Some(proxy.depth))
    }

    ghost function Now(): Books
      reads Footprint()
    {
      Books(cache.backend.entries, retrans.Claims(), retrans.wire, retrans.unicasts, tiers, charged, out,
            if proxy == null then [] else proxy.queue, if proxy == null then [] else proxy.nacks)
    }

    /** Answer honest congestion with a hint of how long to hold. */
    method SendThrottled(src: Addr, bucket: byte, seqNum: uint64)
      modifies `out
      ensures out == old(out) + [(ResponseBytes(Throttled(bucket, seqNum)), src)]
    {
      var buf := BuildResponse(MSG_THROTTLED, bucket & 0x0F, seqNum);
      out := out + [(buf[..], src)];
    }

    method SendMiss(src: Addr)
      modifies `out
      ensures out == old(out) + [(ResponseBytes(Miss), src)]
    {
      var buf := BuildResponse(MSG_MISS, 0, 0);
      out := out + [(buf[..], src)];
    }

    method SendAck(src: Addr, flags: byte, seqNum: uint64)
      modifies `out
      ensures out == old(out) + [(ResponseBytes(Ack(flags, seqNum)), src)]
    {
      var buf := BuildResponse(MSG_ACK, flags, seqNum);
      out := out + [(buf[..], src)];
    }

    /** Multicast a hit unless a sibling holds the claim on its key. */
    method Multicast(raw: seq<byte>, w: World) returns (o: Outcome)
      requires Valid() && Framed(raw) && |w.writes| == |w.order|
      modifies retrans.Footprint()
      ensures Valid() && Now() == Multicasted(Current(), raw, w, old(Now()))
      ensures o == Suppressed <==> !MayMulticast(Current(), old(Now()).claims, raw, w)
      ensures o == Sent <==> MayMulticast(Current(), old(Now()).claims, raw, w) && Clean(Current(), raw, w)
    {
      Ingress.OtherSpaceSameFrames(retrans.Claims(), Space.Dedup, SetNX(KeyBytes(raw), CLAIMED, retrans.window),
                                   w.claimAt, w.claim);
      o := retrans.Send(raw, TxIDOf(raw), w.claimAt, w.claim, w.order, w.writes);
    }

    /** The group tier: charge the frame's group, whose bucket says `groupOk`. */
    method AllowGroup(ip: seq<byte>, raw: seq<byte>, groupOk: bool) returns (ok: bool)
      modifies `charged
      ensures ok == groupOk
      ensures charged == old(charged) + [(IpKey(ip), ChargedGroup(retrans.planes, raw))]
    {
      var group := retrans.planes.shard(TxIDOf(raw));
      if HasVer(raw, VER_BUNDLE) && |raw| >= 58 {
        group := U16(raw[56..58]) as bv32;
      }
      if HasVer(raw, VER_BEEF) && |raw| >= 88 && retrans.planes.beef.Some? {
        group := retrans.planes.beef.value(raw[56..88]);
      }
      charged := charged + [(IpKey(ip), group)];
      ok := groupOk;
    }

    /** Unicast a hit to whoever asked, in unicast mode or when a proxy did. */
    method SendBack(raw: seq<byte>, n: Nack, src: Option<Addr>, ok: bool) returns (sent: bool)
      modifies retrans`unicasts
      ensures sent <==> modes.Unicasts(n.Proxied(), src.Some?) && ok
      ensures retrans.unicasts == old(retrans.unicasts) + if sent then [(raw, src.value)] else []
    {
      sent := false;
      if (modes.unicast || n.Proxied()) && src.Some? {
        sent := retrans.SendTo(raw, src.value, ok);
      }
    }

    /** Multicast and unicast a hit, building up the flags of what went out. */
    method Dispatch(raw: seq<byte>, n: Nack, src: Option<Addr>, w: World) returns (stage: Stage, flags: byte)
      requires Valid() && Framed(raw) && |w.writes| == |w.order|
      modifies retrans.Footprint()
      ensures Valid() && Sends(Current(), raw, n, src, w, stage, old(Now()), Now())
      ensures stage.Served? ==> flags == AckFlags(stage.multicast, stage.unicast)
      ensures Now().out == old(Now()).out
    {
      flags := 0;
      var multicast, unicast := false, false;
      if modes.multicast {
        var o := Multicast(raw, w);
        if o == Failed {
          return SendFailed, 0;
        }
        if o == Sent {
          flags, multicast := flags | ACK_MULTICAST, true;
        }
      }
      ghost var mid := Now();
      unicast := SendBack(raw, n, src, w.unicastOk);
      if unicast {
        flags := flags | ACK_UNICAST;
      }
      stage := Served(multicast, unicast);
      assert Now() == mid.(unicasts := retrans.unicasts);
    }

    /** Acknowledge a served hit, unless every send that was tried came to nothing. */
    method Acknowledge(stage: Stage, flags: byte, n: Nack, src: Option<Addr>)
      requires stage.Served? && flags == AckFlags(stage.multicast, stage.unicast)
      modifies `out
      ensures out == old(out) + Replies(stage, n, src, modes)
    {
      var attempted := modes.multicast || ((modes.unicast || n.Proxied()) && src.Some?);
      if !modes.suppressAck && src.Some? && (flags != 0 || !attempted) {
        SendAck(src.value, flags, n.startSeq);
      }
    }

    /** Repair a hit, then acknowledge it. */
    method Repair(raw: seq<byte>, n: Nack, src: Option<Addr>, w: World) returns (stage: Stage)
      requires Valid() && Framed(raw) && |w.writes| == |w.order|
      modifies {this} + retrans.Footprint()
      ensures Valid() && Sends(Current(), raw, n, src, w, stage, old(Now()), Now())
      ensures Now().out == old(Now()).out + Replies(stage, n, src, modes)
    {
      var flags: byte;
      stage, flags := Dispatch(raw, n, src, w);
      if stage == SendFailed {
        return;
      }
      ghost var sent := Now();
      Acknowledge(stage, flags, n, src);
      assert Now() == sent.(out := out);
    }

    /** The answer of the group tier's refusal. */
    method RefuseGroup(n: Nack, src: Option<Addr>)
      modifies `out
      ensures out == old(out) + Replies(Refused(GroupTier), n, src, modes)
    {
      if modes.throttle && src.Some? {
        SendThrottled(src.value, BUCKET_GROUP, n.startSeq);
      }
    }

    /** A hit: the group tier, then the repair. */
    method ServeHit(raw: seq<byte>, n: Nack, src: Option<Addr>, w: World) returns (stage: Stage)
      requires Valid() && Framed(raw) && |w.writes| == |w.order|
      modifies {this} + retrans.Footprint()
      ensures Valid()
      ensures var charge := if grouped then [(IpKey(SourceIp(src)), ChargedGroup(retrans.planes, raw))] else [];
              var b := old(Now()).(charged := old(charged) + charge);
              && (grouped && !w.groupOk ==>
                    stage == Refused(GroupTier) && Now() == b.(out := b.out + Replies(stage, n, src, modes)))
              && (!grouped || w.groupOk ==>
                    Sends(Current(), raw, n, src, w, stage, b, Now()) && out == b.out + Replies(stage, n, src, modes))
    {
      if grouped {
        var ok := AllowGroup(SourceIp(src), raw, w.groupOk);
        if !ok {
          RefuseGroup(n, src);
          return Refused(GroupTier);
        }
      }
      assert Now() == old(Now()).(charged := charged);
      stage := Repair(raw, n, src, w);
    }

    /** A miss: say so, and hand the gap to the proxy unless it was handed to us by one. */
    method ServeMiss(n: Nack, src: Option<Addr>)
      requires Valid()
      modifies `out, if proxy == null then {} else {proxy}
      ensures Valid()
      ensures var queues := proxy != null && !n.Proxied() && |old(Now()).queue| < proxy.depth;
              Now() == old(Now()).(out := old(out) + Replies(Missed, n, src, modes),
                                   queue := old(Now()).queue + if queues then [JobOf(n, src)] else [])
    {
      if !modes.suppressMiss && src.Some? {
        SendMiss(src.value);
      }
      if proxy != null && !n.Proxied() {
        var ok := proxy.Enqueue(JobOf(n, src));
      }
    }

    /** The tiers before the lookup, with the answer a refusal earns. */
    method Admit(n: Nack, src: Option<Addr>, w: World) returns (level: Level)
      modifies `tiers, `out
      ensures level == Judge(old(tiers), settings, AskOf(n, src, w))
      ensures tiers == Judged(old(tiers), settings, AskOf(n, src, w))
      ensures out == old(out) + if level == Admitted then [] else Replies(RefusalAt(level), n, src, modes)
    {
      if !w.ipOk {
        return IP;
      }
      var open := tiers.SequenceOpen(settings, SeqKey(n.hashKey, n.startSeq), w.seqAt);
      tiers := tiers.AfterSequence(settings, SeqKey(n.hashKey, n.startSeq), w.seqAt);
      if !open {
        if modes.throttle && src.Some? {
          SendThrottled(src.value, BUCKET_SEQUENCE, n.startSeq);
        }
        return Sequence;
      }
      open := tiers.ChainOpen(settings, SourceIp(src), n.hashKey, w.chainAt);
      tiers := tiers.AfterChain(settings, SourceIp(src), n.hashKey, w.chainAt);
      if !open {
        if modes.throttle && src.Some? {
          SendThrottled(src.value, BUCKET_CHAIN, n.startSeq);
        }
        return Chain;
      }
      return Admitted;
    }

    /** Look the frame up, and serve the hit or the miss. */
    method LookUp(n: Nack, src: Option<Addr>, w: World) returns (stage: Stage)
      requires Valid() && |w.writes| == |w.order|
      modifies Footprint()
      ensures Valid() && LookedUp(Current(), n, src, w, stage, old(Now()), Now())
    {
      var found, err := cache.Retrieve(FlowKey(n.hashKey, n.startSeq), w.lookupAt, w.lookup);
      if err {
        return CacheFailed;
      }
      if found.None? {
        ServeMiss(n, src);
        return Missed;
      }
      assert Ingress.KeyedBy(found.value, FlowKey(n.hashKey, n.startSeq));
      stage := ServeHit(found.value, n, src, w);
    }

    /** Serve one datagram. */
    method ProcessNACK(d: seq<byte>, src: Option<Addr>, w: World) returns (stage: Stage)
      requires Valid() && |w.writes| == |w.order|
      modifies Footprint()
      ensures Valid() && Processed(Current(), d, src, w, stage, old(Now()), Now())
    {
      var parsed := ReadNack(d);
      if parsed.None? {
        return Malformed;
      }
      var n := parsed.value;
      if n.endSeq != n.startSeq {
        return Ranged;
      }
      var level := Admit(n, src, w);
      ghost var mid := Now();
      assert mid == old(Now()).(tiers := tiers, out := out);
      if level != Admitted {
        stage := RefusalAt(level);
        TurnedAway(Current(), d, n, src, w, old(Now()), mid);
        return;
      }
      stage := LookUp(n, src, w);
      LetThrough(Current(), d, n, src, w, stage, old(Now()), mid, Now());
    }
  }
}
