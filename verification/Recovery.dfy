/** A gap repaired across domains: downstream miss, upstream hit, re-cache, downstream hit. */
module Recovery {
  import opened Bytes
  import opened TtlStore
  import opened Frames
  import opened Wire
  import opened Limits
  import opened Proxy
  import opened Server
  import Answers
  import Ingress
  import Requests
  import Retransmit

  /**
   The request a recovery sends is taken by the upstream for exactly the gap that was
   missed, and is flagged, so that the upstream returns the frame and never passes the
   request on.
   */
  lemma ProxiedRequestReadsBack(n: Nack, src: Option<Addr>)
    requires |n.subtree| == 32
    ensures var m := AskFor(JobOf(n, src));
            && ReadNack(NackBytes(m)) == Some(m) && Wanted(NackBytes(m)) && m.Proxied()
            && m.hashKey == n.hashKey && m.startSeq == n.startSeq && m.subtree == n.subtree
  {
    NackReadsBack(AskFor(JobOf(n, src)));
  }

  /** A flagged request is served from the cache but never handed to the proxy. */
  lemma FlaggedNeverEnqueues(cfg: Setup, d: seq<byte>, src: Option<Addr>, w: World, stage: Stage, b: Books, c: Books)
    requires |w.writes| == |w.order| && Processed(cfg, d, src, w, stage, b, c)
    requires ReadNack(d).Some? && ReadNack(d).value.Proxied()
    ensures c.queue == b.queue
  {
    Answers.OnlyOpenMissEnqueues(cfg, d, src, w, stage, b, c);
  }

  /** An upstream that serves a flagged request sends its cached frame back, in every mode. */
  lemma UpstreamReturnsFrame(cfg: Setup, j: Job, from: Addr, w: World, stage: Stage, b: Books, c: Books)
    requires |w.writes| == |w.order| && Ingress.SelfKeyed(b.cached) && |j.subtree| == 32
    requires Processed(cfg, NackBytes(AskFor(j)), Some(from), w, stage, b, c)
    requires stage.Served? && w.unicastOk
    ensures var key := FlowKey(j.hashKey, j.seqNum);
            && Live(b.cached, Full(Space.Frames, key), w.lookupAt)
            && var raw := b.cached[Full(Space.Frames, key)].value;
               Ingress.KeyedBy(raw, key) && c.unicasts == b.unicasts + [(raw, from)]
  {
    var n := AskFor(j);
    NackReadsBack(n);
    Answers.RepairedIffHit(cfg, NackBytes(n), Some(from), w, stage, b, c);
    Answers.RepairedSends(cfg, NackBytes(n), Some(from), w, stage, b, c, n);
  }

  // ── what is cached stays ──────────────────────────────────────────────────

  /** The backend after a series of requests through its views. */
  function Ran(m: Entries, reqs: seq<Request>): Entries
    decreases |reqs|
  {
    if reqs == [] then m
    else Ran(Effect(m, Within(reqs[0].space, reqs[0].op), reqs[0].now, reqs[0].link), reqs[1..])
  }

  /** A request that cannot replace or delete the frame under `key`. */
  predicate Spares(r: Request, key: seq<byte>)
  {
    r.space == Space.Frames ==> r.op.Get? || r.op.key != key
  }

  lemma {:induction false} FrameStays(m: Entries, reqs: seq<Request>, raw: seq<byte>, expiry: int)
    requires |raw| >= 56 && Has(m, raw, expiry) && forall r :: r in reqs ==> Spares(r, KeyBytes(raw))
    ensures Has(Ran(m, reqs), raw, expiry)
    decreases |reqs|
  {
    if reqs != [] {
      var r := reqs[0];
      var k := Full(Space.Frames, KeyBytes(raw));
      assert Spares(r, KeyBytes(raw));
      if Full(r.space, r.op.key) == k { FullInjective(r.space, r.op.key, Space.Frames, KeyBytes(raw)); }
      FrameStays(Effect(m, Within(r.space, r.op), r.now, r.link), reqs[1..], raw, expiry);
    }
  }

  /** A delivered frame is in the cache, whatever the claims on its multicast did. */
  lemma DeliveredHas(cfg: Wiring, raw: seq<byte>, w: Trip, st: Stores)
    requires IsFrame(raw) && w.store == Works
    ensures Has(Delivered(cfg, raw, w, st).frames, raw, w.storeAt + cfg.ttls.For(raw[6]))
  {
    var kept := Kept(cfg, raw, w, st);
    assert Has(kept.frames, raw, w.storeAt + cfg.ttls.For(raw[6]));
    var op := SetNX(KeyBytes(raw), CLAIMED, cfg.net.window);
    Ingress.OtherSpaceSameFrames(kept.claims, Space.Dedup, op, w.sendAt, w.send);
  }

  /** A request for a frame that is cached until `expiry` is a hit until then, if the tiers let it through. */
  lemma CachedIsHit(cfg: Setup, raw: seq<byte>, expiry: int, n: Nack, src: Option<Addr>, w: World, b: Books)
    requires |raw| >= 56 && Has(b.cached, raw, expiry) && KeyBytes(raw) == FlowKey(n.hashKey, n.startSeq)
    requires n.startSeq == n.endSeq && Judge(b.tiers, cfg.settings, AskOf(n, src, w)) == Admitted
    requires w.lookup == Works && (cfg.grouped ==> w.groupOk)
    ensures Answers.Hit(cfg, n, src, w, b) <==> w.lookupAt < expiry
    ensures FrameKey(n) in b.cached && b.cached[FrameKey(n)].value == raw
  {
  }

  // ── the whole way ─────────────────────────────────────────────────────────

  /** The frame an upstream returned to `from` in serving the job's request. */
  ghost predicate Returned(up: Setup, j: Job, from: Addr, w: World, raw: seq<byte>)
    requires |w.writes| == |w.order| && |j.subtree| == 32
  {
    exists stage, b, c ::
      && Processed(up, NackBytes(AskFor(j)), Some(from), w, stage, b, c) && Ingress.SelfKeyed(b.cached)
      && stage.Served? && c.unicasts == b.unicasts + [(raw, from)]
  }

  /** What an upstream returns carries the key of the gap. */
  lemma ReturnedIsAsked(up: Setup, j: Job, from: Addr, w: World, raw: seq<byte>)
    requires |w.writes| == |w.order| && |j.subtree| == 32 && w.unicastOk && Returned(up, j, from, w, raw)
    ensures Ingress.KeyedBy(raw, FlowKey(j.hashKey, j.seqNum))
  {
    var stage, b, c :|
      && Processed(up, NackBytes(AskFor(j)), Some(from), w, stage, b, c) && Ingress.SelfKeyed(b.cached)
      && stage.Served? && c.unicasts == b.unicasts + [(raw, from)];
    UpstreamReturnsFrame(up, j, from, w, stage, b, c);
    var sent := b.cached[Full(Space.Frames, FlowKey(j.hashKey, j.seqNum))].value;
    assert c.unicasts[|b.unicasts|] == (sent, from) && c.unicasts[|b.unicasts|] == (raw, from);
  }

  /** The copy arrives at the `i`th attempt, after datagrams that are passed over. */
  ghost predicate Arrives(w: Trip, i: nat, raw: seq<byte>)
  {
    && i < |w.tries| && i < w.stopAt && (forall k :: 0 <= k < i ==> Yield(w.tries[k]).None?)
    && exists before, rest ::
         w.tries[i] == Exchange(true, true, before + [raw] + rest) && forall d :: d in before ==> PassedOver(d)
  }

  /** A recovery that goes on returns the frame that arrives, byte for byte. */
  lemma ArrivedIsGot(cfg: Wiring, j: Job, w: Trip, st: Stores, i: nat, raw: seq<byte>)
    requires Framed(raw) && |raw| >= HEADER_SIZE && GoesOn(cfg, j, w, st) && Arrives(w, i, raw)
    ensures ResultOf(cfg, j, w, st) == Got(raw)
  {
    var before, rest :|
      w.tries[i] == Exchange(true, true, before + [raw] + rest) && forall d :: d in before ==> PassedOver(d);
    CachedFrameComesBack(before, raw, rest);
    FoundIsFirst(w.tries, w.stopAt, i);
  }

  /** A request for the one frame of a gap that the tiers let through to a working cache. */
  predicate LetIn(cfg: Setup, j: Job, n: Nack, src: Option<Addr>, w: World, b: Books)
  {
    && n.hashKey == j.hashKey && n.startSeq == n.endSeq == j.seqNum
    && Judge(b.tiers, cfg.settings, AskOf(n, src, w)) == Admitted
    && w.lookup == Works && (cfg.grouped ==> w.groupOk)
  }

  /** What a recovery delivered, a later request finds until it expires, and not after. */
  lemma DeliveredIsHit(cfg: Wiring, j: Job, raw: seq<byte>, w: Trip, st: Stores, reqs: seq<Request>,
                       down: Setup, n: Nack, src: Option<Addr>, dw: World, b: Books)
    requires IsFrame(raw) && KeyBytes(raw) == FlowKey(j.hashKey, j.seqNum) && w.store == Works
    requires forall r :: r in reqs ==> Spares(r, KeyBytes(raw))
    requires LetIn(down, j, n, src, dw, b) && b.cached == Ran(Delivered(cfg, raw, w, st).frames, reqs)
    ensures Answers.Hit(down, n, src, dw, b) <==> dw.lookupAt < w.storeAt + cfg.ttls.For(raw[6])
    ensures FrameKey(n) in b.cached && b.cached[FrameKey(n)].value == raw
  {
    var expiry := w.storeAt + cfg.ttls.For(raw[6]);
    DeliveredHas(cfg, raw, w, st);
    FrameStays(Delivered(cfg, raw, w, st).frames, reqs, raw, expiry);
    CachedIsHit(down, raw, expiry, n, src, dw, b);
  }

  /**
   A request that missed downstream is repaired from upstream. The upstream serves the
   proxied request, and its copy, a full header long, arrives in a recovery that goes on.
   Then the recovery returns the upstream's bytes, and what it leaves in the cache,
   through anything that spares their key, makes every later request for the gap that the
   tiers let through a hit on those bytes until they expire, and not after.
   */
  lemma GapIsRepairedAcrossDomains(
    up: Setup, from: Addr, uw: World, raw: seq<byte>, cfg: Wiring, j: Job, w: Trip, st: Stores, i: nat,
    reqs: seq<Request>, down: Setup, n: Nack, src: Option<Addr>, dw: World, b: Books)
    requires |uw.writes| == |uw.order| && |j.subtree| == 32 && uw.unicastOk && Returned(up, j, from, uw, raw)
    requires |raw| >= HEADER_SIZE && GoesOn(cfg, j, w, st) && Arrives(w, i, raw) && w.store == Works
    requires forall r :: r in reqs ==> Spares(r, FlowKey(j.hashKey, j.seqNum))
    requires IsFrame(raw) && LetIn(down, j, n, src, dw, b)
    requires b.cached == Ran(Delivered(cfg, raw, w, Claimed(cfg, j, w, st)).frames, reqs)
    ensures ResultOf(cfg, j, w, st) == Got(raw)
    ensures Answers.Hit(down, n, src, dw, b) <==> dw.lookupAt < w.storeAt + cfg.ttls.For(raw[6])
    ensures FrameKey(n) in b.cached && b.cached[FrameKey(n)].value == raw
  {
    ReturnedIsAsked(up, j, from, uw, raw);
    ArrivedIsGot(cfg, j, w, st, i, raw);
    DeliveredIsHit(cfg, j, raw, w, Claimed(cfg, j, w, st), reqs, down, n, src, dw, b);
  }

  // ── what does not come back ───────────────────────────────────────────────

  /**
   The fetch takes the first datagram that has the shape of a frame. A recovery that kept
   it has filled the gap it was for exactly when that frame carries the gap's key.
   */
  lemma FillsGapIff(cfg: Wiring, j: Job, w: Trip, st: Stores, raw: seq<byte>)
    requires ResultOf(cfg, j, w, st) == Got(raw) && IsFrame(raw) && w.store == Works && cfg.ttls.For(raw[6]) > 0
    requires !Live(Claimed(cfg, j, w, st).frames, Full(Space.Frames, FlowKey(j.hashKey, j.seqNum)), w.storeAt)
    ensures Live(Delivered(cfg, raw, w, Claimed(cfg, j, w, st)).frames,
                 Full(Space.Frames, FlowKey(j.hashKey, j.seqNum)), w.storeAt)
            <==> KeyBytes(raw) == FlowKey(j.hashKey, j.seqNum)
  {
    var claimed, gap := Claimed(cfg, j, w, st), FlowKey(j.hashKey, j.seqNum);
    var kept := Kept(cfg, raw, w, claimed);
    if Full(Space.Frames, gap) == Full(Space.Frames, KeyBytes(raw)) {
      FullInjective(Space.Frames, gap, Space.Frames, KeyBytes(raw));
    }
    assert Live(kept.frames, Full(Space.Frames, gap), w.storeAt) <==> KeyBytes(raw) == gap;
    var op := SetNX(KeyBytes(raw), CLAIMED, cfg.net.window);
    Ingress.OtherSpaceSameFrames(kept.claims, Space.Dedup, op, w.sendAt, w.send);
  }

  /** A stamped bundle with no members: a header and nothing else. */
  const EMPTY_BUNDLE: seq<byte> :=
    MAGIC + PROTO_VER + [VER_BUNDLE, 0]
    + Put64(0) + Put64(0) + Put64(0) + Put64(0)  // 8..40
    + Put64(0) + Put64(1)                        // flow key
    + [0, 0, 0, 0, 0, 0, 0, 0, 0, 0]

  lemma EmptyBundleReads()
    ensures |EMPTY_BUNDLE| == 66 && Framed(EMPTY_BUNDLE) && EMPTY_BUNDLE[6] == VER_BUNDLE
    ensures U64(EMPTY_BUNDLE[40..48]) == 0 && U64(EMPTY_BUNDLE[48..56]) == 1 && U32(EMPTY_BUNDLE[62..66]) == 0
  {
    var raw := EMPTY_BUNDLE;
    assert |raw| == 66 && raw[..4] == MAGIC && raw[6] == VER_BUNDLE;
    assert raw[62..66] == [0, 0, 0, 0] && raw[40..48] == Put64(0) && raw[48..56] == Put64(1);
    assert U32([0, 0, 0, 0]) == 0;
  }

  /**
   Ingress caches this bundle, and an upstream that has it sends it back, but the fetch
   does not take it for a frame: with nothing else arriving, the recovery fails.
   */
  lemma ShortBundleIsNotRecovered(codec: Codec, ttls: Ttls, before: seq<seq<byte>>)
    requires forall d :: d in before ==> PassedOver(d)
    ensures Ingress.StoreTtl(codec, ttls, EMPTY_BUNDLE) == Some(ttls.tx)
    ensures Framed(EMPTY_BUNDLE) && Fetched(before + [EMPTY_BUNDLE]) == None
  {
    var raw := EMPTY_BUNDLE;
    EmptyBundleReads();
    assert raw[0..4] == raw[..4];
    CachedFrameComesBack(before, raw, []);
    assert before + [raw] + [] == before + [raw];
  }

  lemma StrayReads(payload: seq<byte>)
    requires |payload| == 26
    ensures IsFrame(EMPTY_BUNDLE + payload) && (EMPTY_BUNDLE + payload)[6] == VER_BUNDLE
    ensures KeyBytes(EMPTY_BUNDLE + payload) == FlowKey(0, 1)
  {
    var raw := EMPTY_BUNDLE + payload;
    EmptyBundleReads();
    assert raw[..4] == EMPTY_BUNDLE[..4] && raw[6] == EMPTY_BUNDLE[6];
    assert raw[40..48] == EMPTY_BUNDLE[40..48] && raw[48..56] == EMPTY_BUNDLE[48..56];
    FieldsMakeKey(raw);
  }

  /**
   A longer bundle of another flow, arriving first, ends the recovery of any other gap: it
   is kept and delivered, and the gap stays open.
   */
  lemma StrayFrameEndsRecovery(cfg: Wiring, j: Job, w: Trip, st: Stores, payload: seq<byte>, rest: seq<seq<byte>>)
    requires |payload| == 26 && (j.hashKey != 0 || j.seqNum != 1)
    requires GoesOn(cfg, j, w, st) && w.stopAt > 0 && w.store == Works && cfg.ttls.tx > 0
    requires w.tries != [] && w.tries[0] == Exchange(true, true, [EMPTY_BUNDLE + payload] + rest)
    requires !Live(Claimed(cfg, j, w, st).frames, Full(Space.Frames, FlowKey(j.hashKey, j.seqNum)), w.storeAt)
    ensures var raw := EMPTY_BUNDLE + payload;
            && ResultOf(cfg, j, w, st) == Got(raw) && IsFrame(raw)
            && !Live(Delivered(cfg, raw, w, Claimed(cfg, j, w, st)).frames,
                     Full(Space.Frames, FlowKey(j.hashKey, j.seqNum)), w.storeAt)
  {
    StrayReads(payload);
    FillsGapIff(cfg, j, w, st, EMPTY_BUNDLE + payload);
  }

  // ── how long a recovered frame is kept ────────────────────────────────────

  /**
   A recovered frame is kept as long as a received one, except a fragment: a re-cache
   gives it the time of a transaction, whatever it is a fragment of.
   */
  lemma RecacheTtlAgreesIff(codec: Codec, ttls: Ttls, raw: seq<byte>)
    requires Faithful(codec) && Ingress.StoreTtl(codec, ttls, raw).Some?
    ensures Framed(raw)
    ensures ttls.For(raw[6]) == Ingress.StoreTtl(codec, ttls, raw).value <==>
            (KindOf(raw) == Fragment ==> ttls.For(codec.decode(Fragment, raw).value.origVer) == ttls.tx)
  {
  }

  /** Reads the fields where every class has them, and takes each fragment for one of a block. */
  function ReadAsBlockPart(kind: Kind, raw: seq<byte>): Option<Header>
  {
    if |raw| < HEADER_SIZE || !Framed(raw) then None
    else Some(Header(U64(raw[40..48]), U64(raw[48..56]), VER_BLOCK, raw[8..40], raw[56..88]))
  }

  /** A stamped fragment of a block, a header long. */
  const BLOCK_PART: seq<byte> :=
    MAGIC + PROTO_VER + [VER_FRAGMENT, 0]
    + Put64(0) + Put64(0) + Put64(0) + Put64(0)             // TxID slot
    + Put64(0) + Put64(1)                                   // flow key
    + Put64(0) + Put64(0) + Put64(0) + Put64(0) + [0, 0, 0, 0]

  /** Such a fragment is received for the time of a block and re-cached for that of a transaction. */
  lemma BlockPartIsKeptOtherwise(ttls: Ttls)
    requires ttls.block != ttls.tx
    ensures Faithful(Codec(ReadAsBlockPart)) && Framed(BLOCK_PART)
    ensures Ingress.StoreTtl(Codec(ReadAsBlockPart), ttls, BLOCK_PART) == Some(ttls.block)
    ensures ttls.For(BLOCK_PART[6]) == ttls.tx != ttls.block
  {
    var raw := BLOCK_PART;
    assert |raw| == 92 && raw[..4] == MAGIC && raw[6] == VER_FRAGMENT && raw[48..56] == Put64(1);
  }

  // ── from the miss on ──────────────────────────────────────────────────────

  /** The gap a request asks for, on behalf of whoever asked. */
  function GapIn(d: seq<byte>, src: Option<Addr>): Job
    requires |d| >= 64
  {
    Job(U64(d[8..16]), U64(d[16..24]), d[32..64], src)
  }

  lemma GapKey(d: seq<byte>, src: Option<Addr>)
    requires |d| >= 64
    ensures FlowKey(GapIn(d, src).hashKey, GapIn(d, src).seqNum) == d[8..24]
  {
    Put64OfU64(d[8..16]);
    Put64OfU64(d[16..24]);
    assert d[8..24] == d[8..16] + d[16..24];
  }

  /** A later request for the same gap, let through to a working cache. */
  ghost predicate AsksLater(down: Setup, d: seq<byte>, again: seq<byte>, src: Option<Addr>, w: World, b: Books)
  {
    && |d| >= 64 && Requests.IsRequest(again) && again[8..24] == d[8..24] && ReadNack(again).Some?
    && Judge(b.tiers, down.settings, AskOf(ReadNack(again).value, src, w)) == Admitted
    && w.lookup == Works && (down.grouped ==> w.groupOk)
  }

  lemma LaterIsLetIn(down: Setup, d: seq<byte>, who: Option<Addr>, again: seq<byte>, src: Option<Addr>, w: World,
                     b: Books)
    requires AsksLater(down, d, again, src, w, b)
    ensures LetIn(down, GapIn(d, who), ReadNack(again).value, src, w, b)
    ensures FrameKey(ReadNack(again).value) == Full(Space.Frames, d[8..24])
  {
    Requests.RequestReads(again);
    assert again[8..16] == again[8..24][..8] && again[16..24] == again[8..24][8..];
    assert d[8..16] == d[8..24][..8] && d[16..24] == d[8..24][8..];
  }

  /**
   The whole way from a miss. An unflagged request misses at an endpoint that has a proxy
   with room: exactly its gap is queued. If the recovery of that job goes on and a copy
   that an upstream returned for it arrives, then the recovery returns those bytes, and
   every later request with the same bytes 8..24 that the tiers let through is a hit on
   them until they expire, and not after.
   */
  lemma MissIsRepaired(
    down: Setup, d: seq<byte>, src: Option<Addr>, w0: World, stage: Stage, b0: Books, c0: Books,
    up: Setup, from: Addr, uw: World, raw: seq<byte>, cfg: Wiring, w: Trip, st: Stores, i: nat, reqs: seq<Request>,
    again: seq<byte>, src': Option<Addr>, dw: World, b: Books)
    requires |w0.writes| == |w0.order| && Processed(down, d, src, w0, stage, b0, c0)
    requires Requests.StartsRecovery(down, d, w0, stage, b0)
    requires |uw.writes| == |uw.order| && uw.unicastOk && IsFrame(raw) && w.store == Works && Arrives(w, i, raw)
    requires Returned(up, GapIn(d, src), from, uw, raw) && GoesOn(cfg, GapIn(d, src), w, st)
    requires forall r :: r in reqs ==> Spares(r, d[8..24])
    requires AsksLater(down, d, again, src', dw, b)
    requires b.cached == Ran(Delivered(cfg, raw, w, Claimed(cfg, GapIn(d, src), w, st)).frames, reqs)
    ensures c0.queue == b0.queue + [GapIn(d, src)] && ResultOf(cfg, GapIn(d, src), w, st) == Got(raw)
    ensures Answers.Hit(down, ReadNack(again).value, src', dw, b) <==>
            dw.lookupAt < w.storeAt + cfg.ttls.For(raw[6])
    ensures Full(Space.Frames, d[8..24]) in b.cached && b.cached[Full(Space.Frames, d[8..24])].value == raw
  {
    Requests.MissStartsRecovery(down, d, src, w0, stage, b0, c0);
    GapKey(d, src);
    LaterIsLetIn(down, d, src, again, src', dw, b);
    GapIsRepairedAcrossDomains(up, from, uw, raw, cfg, GapIn(d, src), w, st, i, reqs, down, ReadNack(again).value,
                               src', dw, b);
  }

  lemma KeptClaims(cfg: Wiring, raw: seq<byte>, w: Trip, st: Stores, k: seq<byte>, at: int)
    requires IsFrame(raw) && (cfg.framesAreClaims ==> st.frames == st.claims)
    ensures Live(Kept(cfg, raw, w, st).claims, Full(Space.Dedup, k), at) <==> Live(st.claims, Full(Space.Dedup, k), at)
  {
    if Full(Space.Dedup, k) == Full(Space.Frames, KeyBytes(raw)) {
      FullInjective(Space.Dedup, k, Space.Frames, KeyBytes(raw));
    }
  }

  /**
   A recovered frame whose key no sibling holds, at an endpoint that multicasts, with a
   backend that answers, a group for it and sockets that take it, is put on every socket.
   */
  lemma RecoveredIsMulticast(cfg: Wiring, raw: seq<byte>, w: Trip, st: Stores, group: bv32)
    requires IsFrame(raw) && cfg.multicast && w.send == Works && (cfg.framesAreClaims ==> st.frames == st.claims)
    requires |w.writes| == |w.order| && forall i :: 0 <= i < |w.writes| ==> w.writes[i]
    requires !Live(st.claims, Full(Space.Dedup, raw[40..56]), w.sendAt)
    requires Retransmit.TargetGroup(cfg.net.planes, cfg.net.codec, raw, raw[8..40]) == Some(group)
    ensures var put := Reinjected(cfg, raw, w, st);
            |put| == |w.order| && forall k :: 0 <= k < |put| ==> put[k] == Retransmit.Write(raw, group, w.order[k])
  {
    KeptClaims(cfg, raw, w, st, raw[40..56], w.sendAt);
    Retransmit.FreeFrameIsSent(cfg.net, Kept(cfg, raw, w, st).claims, raw, w.sendAt, w.order, w.writes, group);
  }
}
