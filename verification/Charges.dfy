/**
 The tiers before the lookup, over whole series of requests: which earlier requests count
 against a request, told from their datagrams, their sources and what became of them.
 */
module Charges {
  import opened Bytes
  import opened TtlStore
  import opened WindowSpec
  import opened Wire
  import opened Limits
  import opened Server
  import opened Requests

  /** A request as it was served. */
  datatype Request = Request(d: seq<byte>, src: Option<Addr>, w: World, stage: Stage, before: Books, after: Books)

  /**
   The requests were served one after the other, from a limiter that had seen none; between
   them anything may happen to the cache, the claims and the queues.
   */
  ghost predicate Served(cfg: Setup, rs: seq<Request>)
  {
    && (forall i :: 0 <= i < |rs| ==> WasServed(cfg, rs[i]))
    && (forall i :: 0 <= i < |rs| ==> rs[i].before.tiers == TiersAfter(rs[..i]))
  }

  ghost predicate WasServed(cfg: Setup, r: Request)
  {
    |r.w.writes| == |r.w.order| && Processed(cfg, r.d, r.src, r.w, r.stage, r.before, r.after)
  }

  /** What the tiers know when the requests have been served. */
  function TiersAfter(rs: seq<Request>): Tiers
  {
    if rs == [] then Tiers(map[], map[]) else rs[|rs| - 1].after.tiers
  }

  /** Where a request came from, as an address in 16-byte form. */
  function Origin(src: Option<Addr>): seq<byte>
  {
    IpKey(if src.Some? then src.value.ip else [])
  }

  /** The sequence tier let the request through. */
  predicate PassedSequence(r: Request)
  {
    IsRequest(r.d) && r.w.ipOk && r.stage != Refused(SequenceTier)
  }

  predicate PassedChain(r: Request)
  {
    PassedSequence(r) && r.stage != Refused(ChainTier)
  }

  /** Requests for the same HashKey and StartSeq that the sequence tier let through after `since`. */
  function SameGap(rs: seq<Request>, key: seq<byte>, since: int): nat
  {
    if rs == [] then 0
    else
      var r := rs[|rs| - 1];
      SameGap(rs[..|rs| - 1], key, since)
      + (if PassedSequence(r) && r.d[8..24] == key && r.w.seqAt > since then 1 else 0)
  }

  /** Requests of the same source for the same HashKey that the chain tier let through after `since`. */
  function SameFlow(rs: seq<Request>, origin: seq<byte>, hash: seq<byte>, since: int): nat
  {
    if rs == [] then 0
    else
      var r := rs[|rs| - 1];
      SameFlow(rs[..|rs| - 1], origin, hash, since)
      + (if PassedChain(r) && Origin(r.src) == origin && r.d[8..16] == hash && r.w.chainAt > since then 1 else 0)
  }

  // ── one request ───────────────────────────────────────────────────────────

  /** The request as the tiers see it. */
  function AskBy(r: Request): Ask
    requires |r.d| >= 64
  {
    Ask(r.w.ipOk, if r.src.Some? then r.src.value.ip else [], U64(r.d[8..16]), U64(r.d[16..24]), r.w.seqAt, r.w.chainAt)
  }

  /** What a request does to the tiers is what judging the fields in its bytes does. */
  ghost predicate Charged(g: Settings, r: Request)
  {
    if IsRequest(r.d) then
      var level := Judge(r.before.tiers, g, AskBy(r));
      && r.after.tiers == Judged(r.before.tiers, g, AskBy(r))
      && (r.stage == Refused(IpTier) <==> level == IP)
      && (r.stage == Refused(SequenceTier) <==> level == Sequence)
      && (r.stage == Refused(ChainTier) <==> level == Chain)
    else r.after.tiers == r.before.tiers && !r.stage.Refused?
  }

  /** An address that is not known is judged as the unspecified one. */
  lemma SameJudgement(t: Tiers, g: Settings, a: Ask, b: Ask)
    requires a == b.(ip := a.ip) && IpKey(a.ip) == IpKey(b.ip)
    ensures Judge(t, g, a) == Judge(t, g, b) && Judged(t, g, a) == Judged(t, g, b)
  {
  }

  lemma LookedUpTiers(cfg: Setup, n: Nack, src: Option<Addr>, w: World, stage: Stage, b: Books, c: Books)
    requires |w.writes| == |w.order| && LookedUp(cfg, n, src, w, stage, b, c)
    ensures c.tiers == b.tiers
  {
  }

  lemma JudgedByServer(cfg: Setup, d: seq<byte>, src: Option<Addr>, w: World, stage: Stage, b: Books, c: Books, n: Nack)
    requires |w.writes| == |w.order| && Processed(cfg, d, src, w, stage, b, c)
    requires ReadNack(d) == Some(n) && n.startSeq == n.endSeq
    ensures var level := Judge(b.tiers, cfg.settings, AskOf(n, src, w));
            && c.tiers == Judged(b.tiers, cfg.settings, AskOf(n, src, w))
            && (if level == Admitted then PastTiers(stage) else stage == RefusalAt(level))
  {
    if Judge(b.tiers, cfg.settings, AskOf(n, src, w)) == Admitted {
      var mid := b.(tiers := Judged(b.tiers, cfg.settings, AskOf(n, src, w)));
      LookedUpTiers(cfg, n, src, w, stage, mid, c);
      LookedUpStage(cfg, n, src, w, stage, mid, c);
    }
  }

  lemma ServedIsCharged(cfg: Setup, r: Request)
    requires WasServed(cfg, r)
    ensures Charged(cfg.settings, r)
  {
    RequestReads(r.d);
    if IsRequest(r.d) {
      var n := ReadNack(r.d).value;
      JudgedByServer(cfg, r.d, r.src, r.w, r.stage, r.before, r.after, n);
      SameJudgement(r.before.tiers, cfg.settings, AskOf(n, r.src, r.w), AskBy(r));
    } else {
      NotARequest(cfg, r.d, r.src, r.w, r.stage, r.before, r.after);
    }
  }

  /** The requests follow on one another, each charged as its bytes say. */
  ghost predicate AllCharged(g: Settings, rs: seq<Request>)
  {
    && (forall i :: 0 <= i < |rs| ==> Charged(g, rs[i]))
    && (forall i :: 0 <= i < |rs| ==> rs[i].before.tiers == TiersAfter(rs[..i]))
  }

  lemma ServedAreCharged(cfg: Setup, rs: seq<Request>)
    requires Served(cfg, rs)
    ensures AllCharged(cfg.settings, rs)
  {
    forall i | 0 <= i < |rs| ensures Charged(cfg.settings, rs[i]) {
      ServedIsCharged(cfg, rs[i]);
    }
  }

  lemma EarlierCharged(g: Settings, rs: seq<Request>, n: nat)
    requires AllCharged(g, rs) && n <= |rs|
    ensures AllCharged(g, rs[..n])
  {
    forall i | 0 <= i < n ensures rs[..n][i].before.tiers == TiersAfter(rs[..n][..i]) {
      assert rs[..n][..i] == rs[..i];
    }
  }

  // ── the sequence tier ─────────────────────────────────────────────────────

  function SeqKeyOf(key: seq<byte>): SeqKey
    requires |key| == 16
  {
    SeqKey(U64(key[..8]), U64(key[8..]))
  }

  lemma SameSeqKey(d: seq<byte>, key: seq<byte>)
    requires |d| >= 64 && |key| == 16
    ensures SeqKey(U64(d[8..16]), U64(d[16..24])) == SeqKeyOf(key) <==> d[8..24] == key
  {
    U64Injective(d[8..16], key[..8]);
    U64Injective(d[16..24], key[8..]);
    assert d[8..24] == d[8..16] + d[16..24] && key == key[..8] + key[8..];
  }

  lemma GapNext(t: Tiers, g: Settings, a: Ask, key: SeqKey, since: int)
    ensures |After(Of(Judged(t, g, a).seqs, key), since)| == |After(Of(t.seqs, key), since)|
            + (if a.ipOk && Judge(t, g, a) != Sequence && SeqKey(a.hashKey, a.seqNum) == key && a.seqAt > since
               then 1 else 0)
  {
    AfterSnoc(Of(t.seqs, key), a.seqAt, since);
  }

  /** One request adds an event to its own gap, if it is let through, and to no other. */
  lemma GapEvent(g: Settings, r: Request, key: seq<byte>, since: int)
    requires Charged(g, r) && |key| == 16
    ensures |After(Of(r.after.tiers.seqs, SeqKeyOf(key)), since)| ==
            |After(Of(r.before.tiers.seqs, SeqKeyOf(key)), since)|
            + (if PassedSequence(r) && r.d[8..24] == key && r.w.seqAt > since then 1 else 0)
  {
    if IsRequest(r.d) {
      SameSeqKey(r.d, key);
      GapNext(r.before.tiers, g, AskBy(r), SeqKeyOf(key), since);
    }
  }

  /** The events the sequence tier holds of a gap are the requests for it that were let through. */
  lemma {:induction false} GapEvents(g: Settings, rs: seq<Request>, key: seq<byte>, since: int)
    requires AllCharged(g, rs) && |key| == 16
    ensures |After(Of(TiersAfter(rs).seqs, SeqKeyOf(key)), since)| == SameGap(rs, key, since)
    decreases |rs|
  {
    if rs != [] {
      var n := |rs| - 1;
      EarlierCharged(g, rs, n);
      GapEvents(g, rs[..n], key, since);
      GapEvent(g, rs[n], key, since);
    }
  }

  lemma ClosedIff(t: Tiers, g: Settings, a: Ask, since: int)
    requires since == a.seqAt - g.sequenceWindow
    ensures Judge(t, g, a) == Sequence <==>
            a.ipOk && |After(Of(t.seqs, SeqKey(a.hashKey, a.seqNum)), since)| >= g.sequenceMax
  {
  }

  /** As many requests for the gap of `r` as may pass in a window have passed in the one before it. */
  predicate GapIsFull(g: Settings, rs: seq<Request>, r: Request)
    requires |r.d| >= 64
  {
    SameGap(rs, r.d[8..24], r.w.seqAt - g.sequenceWindow) >= g.sequenceMax
  }

  lemma GapRefusal(g: Settings, rs: seq<Request>, r: Request)
    requires AllCharged(g, rs) && Charged(g, r) && r.before.tiers == TiersAfter(rs)
    ensures r.stage == Refused(SequenceTier) <==> IsRequest(r.d) && r.w.ipOk && GapIsFull(g, rs, r)
  {
    if IsRequest(r.d) {
      var since := r.w.seqAt - g.sequenceWindow;
      GapEvents(g, rs, r.d[8..24], since);
      SameSeqKey(r.d, r.d[8..24]);
      ClosedIff(r.before.tiers, g, AskBy(r), since);
    }
  }

  /**
   The sequence tier: a request is refused there exactly when its source's bucket let it
   by and `sequenceMax` requests for the same HashKey and StartSeq, bytes 8..24, were let
   through within the window before it, whoever sent them.
   */
  lemma SequenceRefusalIff(cfg: Setup, rs: seq<Request>, i: nat)
    requires Served(cfg, rs) && i < |rs|
    ensures rs[i].stage == Refused(SequenceTier) <==>
            IsRequest(rs[i].d) && rs[i].w.ipOk && GapIsFull(cfg.settings, rs[..i], rs[i])
  {
    ServedAreCharged(cfg, rs);
    EarlierCharged(cfg.settings, rs, i);
    GapRefusal(cfg.settings, rs[..i], rs[i]);
  }

  // ── the chain tier ────────────────────────────────────────────────────────

  lemma SameChainKey(d: seq<byte>, src: Option<Addr>, origin: seq<byte>, hash: seq<byte>)
    requires |d| >= 64 && |hash| == 8
    ensures ChainKey(Origin(src), U64(d[8..16])) == ChainKey(origin, U64(hash)) <==>
            Origin(src) == origin && d[8..16] == hash
  {
    U64Injective(d[8..16], hash);
  }

  lemma FlowNext(t: Tiers, g: Settings, a: Ask, flow: ChainKey, since: int)
    requires flow.hashKey != 0
    ensures |After(Of(Judged(t, g, a).chains, flow), since)| == |After(Of(t.chains, flow), since)|
            + (if a.ipOk && Judge(t, g, a) == Admitted && ChainKey(IpKey(a.ip), a.hashKey) == flow && a.chainAt > since
               then 1 else 0)
  {
    AfterSnoc(Of(t.chains, flow), a.chainAt, since);
  }

  lemma FlowEvent(g: Settings, r: Request, origin: seq<byte>, hash: seq<byte>, since: int)
    requires Charged(g, r) && |hash| == 8 && U64(hash) != 0
    ensures |After(Of(r.after.tiers.chains, ChainKey(origin, U64(hash))), since)| ==
            |After(Of(r.before.tiers.chains, ChainKey(origin, U64(hash))), since)|
            + (if PassedChain(r) && Origin(r.src) == origin && r.d[8..16] == hash && r.w.chainAt > since then 1 else 0)
  {
    if IsRequest(r.d) {
      SameChainKey(r.d, r.src, origin, hash);
      FlowNext(r.before.tiers, g, AskBy(r), ChainKey(origin, U64(hash)), since);
    }
  }

  lemma {:induction false} FlowEvents(g: Settings, rs: seq<Request>, origin: seq<byte>, hash: seq<byte>, since: int)
    requires AllCharged(g, rs) && |hash| == 8 && U64(hash) != 0
    ensures |After(Of(TiersAfter(rs).chains, ChainKey(origin, U64(hash))), since)|
            == SameFlow(rs, origin, hash, since)
    decreases |rs|
  {
    if rs != [] {
      var n := |rs| - 1;
      EarlierCharged(g, rs, n);
      FlowEvents(g, rs[..n], origin, hash, since);
      FlowEvent(g, rs[n], origin, hash, since);
    }
  }

  lemma ChainClosedIff(t: Tiers, g: Settings, a: Ask, since: int)
    requires since == a.chainAt - g.chainWindow
    ensures Judge(t, g, a) == Chain <==>
            && a.ipOk && Judge(t, g, a) != Sequence && a.hashKey != 0
            && |After(Of(t.chains, ChainKey(IpKey(a.ip), a.hashKey)), since)| >= g.chainMax
  {
  }

  /** As many requests of the source and flow of `r` as may pass in a window have passed in the one before it. */
  predicate FlowIsFull(g: Settings, rs: seq<Request>, r: Request)
    requires |r.d| >= 64
  {
    && U64(r.d[8..16]) != 0
    && SameFlow(rs, Origin(r.src), r.d[8..16], r.w.chainAt - g.chainWindow) >= g.chainMax
  }

  lemma FlowRefusal(g: Settings, rs: seq<Request>, r: Request)
    requires AllCharged(g, rs) && Charged(g, r) && r.before.tiers == TiersAfter(rs)
    ensures r.stage == Refused(ChainTier) <==>
            IsRequest(r.d) && r.w.ipOk && r.stage != Refused(SequenceTier) && FlowIsFull(g, rs, r)
  {
    if IsRequest(r.d) {
      var since := r.w.chainAt - g.chainWindow;
      ChainClosedIff(r.before.tiers, g, AskBy(r), since);
      if U64(r.d[8..16]) != 0 { FlowEvents(g, rs, Origin(r.src), r.d[8..16], since); }
    }
  }

  /**
   The chain tier: a request the sequence tier let through is refused there exactly when
   it names a flow, bytes 8..16 not all zero, and `chainMax` requests of its source for
   that flow were let through within the window before it.
   */
  lemma ChainRefusalIff(cfg: Setup, rs: seq<Request>, i: nat)
    requires Served(cfg, rs) && i < |rs|
    ensures rs[i].stage == Refused(ChainTier) <==>
            && IsRequest(rs[i].d) && rs[i].w.ipOk && rs[i].stage != Refused(SequenceTier)
            && FlowIsFull(cfg.settings, rs[..i], rs[i])
  {
    ServedAreCharged(cfg, rs);
    EarlierCharged(cfg.settings, rs, i);
    FlowRefusal(cfg.settings, rs[..i], rs[i]);
  }
}
