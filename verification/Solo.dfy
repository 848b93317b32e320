/**
 The server's request and the proxy's delivery, each taken as one call, are runs of the
 interleaved endpoints in which nobody else moves: what `Cluster` proves of every run holds
 of the requests `Server` serves and of the frames `Proxy` delivers.
 */
module Solo {
  import opened Bytes
  import opened TtlStore
  import opened Frames
  import opened Wire
  import opened Cluster
  import opened Server
  import Claims
  import Ingress
  import Proxy
  import Retransmit

  /** The endpoint of the cluster that a server setup describes. */
  ghost predicate Same(ep: Endpoint, cfg: Setup)
  {
    && cfg.modes == ep.modes && cfg.net.claiming && cfg.net.window == ep.window > 0
    && forall raw :: ep.route(raw) == GroupOf(cfg, raw)
  }

  /** The server's writes as copies of job `i`: the same bytes, group and socket. */
  function Tag(i: nat, ws: seq<Retransmit.Write>): seq<Copy>
  {
    if ws == [] then []
    else
      var w := ws[|ws| - 1];
      Tag(i, ws[..|ws| - 1]) + [Copy(i, w.raw, w.group, w.socket)]
  }

  /** The copies of job `i` on the first `n` sockets of its order. */
  function First(i: nat, j: Job, group: bv32, n: nat): seq<Copy>
    requires n <= |j.order|
  {
    if n == 0 then [] else First(i, j, group, n - 1) + [Copy(i, j.raw, group, j.order[n - 1])]
  }

  lemma {:induction false} FirstTagged(i: nat, j: Job, group: bv32, n: nat)
    requires n <= |j.order|
    ensures First(i, j, group, n) == Tag(i, Retransmit.Copies(j.raw, group, j.order, n))
  {
    if n > 0 {
      FirstTagged(i, j, group, n - 1);
      var ws := Retransmit.Copies(j.raw, group, j.order, n);
      assert ws[..n - 1] == Retransmit.Copies(j.raw, group, j.order, n - 1);
    }
  }

  /** A job whose writes went as far as they did. */
  function WroteOut(j: Job, writes: seq<bool>): Job
  {
    var all := Retransmit.Reach(writes) == |writes|;
    j.(phase := if all then Unicasting else Broken(j), multicast := all, wrote := Retransmit.Reach(writes))
  }

  /** The state with job `i` and the wire as given, all else the same. */
  function With(s: Cluster.State, i: nat, j: Job, wire: seq<Copy>): Cluster.State
    requires i < |s.jobs|
  {
    s.(jobs := s.jobs[i := j], wire := wire)
  }

  lemma WriteDone(eps: seq<Endpoint>, s: Cluster.State, i: nat, j: Job, wire: seq<Copy>, ok: bool)
    requires i < |s.jobs| && j.at < |eps| && j.phase.Writing?
    ensures Enabled(eps, With(s, i, j, wire), Write(i, ok))
    ensures Do(eps, With(s, i, j, wire), Write(i, ok)) == With(s, i, Written(j, ok), wire + CopyOf(eps, j, i, ok))
  {
    var t := Do(eps, With(s, i, j, wire), Write(i, ok));
    assert t.jobs == s.jobs[i := Written(j, ok)];
  }

  /** The loop over the sockets, from the `n`th on, as far as the writes succeed. */
  lemma {:induction false} WritesRun(eps: seq<Endpoint>, s: Cluster.State, i: nat, j: Job, n: nat, writes: seq<bool>)
    returns (steps: seq<Step>)
    requires i < |s.jobs| && j.at < |eps| && eps[j.at].route(j.raw).Some? && !j.multicast
    requires |writes| == |j.order| && n <= Retransmit.Reach(writes)
    ensures var g := eps[j.at].route(j.raw).value;
            Runs(eps, With(s, i, j.(phase := Writing(n), wrote := n), s.wire + First(i, j, g, n)), steps,
                 With(s, i, WroteOut(j, writes), s.wire + First(i, j, g, Retransmit.Reach(writes))))
    decreases |writes| - n
  {
    var ok, g := n < |writes| && writes[n], eps[j.at].route(j.raw).value;
    var now, wire := j.(phase := Writing(n), wrote := n), s.wire + First(i, j, g, n);
    var end := With(s, i, WroteOut(j, writes), s.wire + First(i, j, g, Retransmit.Reach(writes)));
    WriteDone(eps, s, i, now, wire, ok);
    if ok {
      assert wire + CopyOf(eps, now, i, ok) == s.wire + First(i, j, g, n + 1);
      var rest := WritesRun(eps, s, i, j, n + 1, writes);
      RunsBefore(eps, With(s, i, now, wire), Write(i, ok),
                 With(s, i, now.(phase := Writing(n + 1), wrote := n + 1), s.wire + First(i, j, g, n + 1)), rest, end);
      steps := [Write(i, ok)] + rest;
    } else {
      assert wire + CopyOf(eps, now, i, ok) == wire && Written(now, ok) == WroteOut(j, writes);
      RunsOne(eps, With(s, i, now, wire), Write(i, ok));
      steps := [Write(i, ok)];
    }
  }

  /** A job after its claim was answered and its writes made. */
  function Tried(ep: Endpoint, j: Job, told: bool, writes: seq<bool>): Job
  {
    if !told then j.(phase := Unicasting)
    else if ep.route(j.raw).None? then j.(phase := Broken(j))
    else WroteOut(j, writes)
  }

  function CopiesPut(ep: Endpoint, i: nat, j: Job, told: bool, writes: seq<bool>): seq<Copy>
    requires |writes| == |j.order|
  {
    if told && ep.route(j.raw).Some? then First(i, j, ep.route(j.raw).value, Retransmit.Reach(writes)) else []
  }

  /** From its claim on, a job that is told it won multicasts, and one that is not goes on without. */
  lemma MulticastRun(eps: seq<Endpoint>, s: Cluster.State, i: nat, link: Link, writes: seq<bool>)
    returns (steps: seq<Step>, t: Cluster.State)
    requires Enabled(eps, s, Claim(i, link)) && |writes| == |s.jobs[i].order|
    requires s.jobs[i].wrote == 0 && !s.jobs[i].multicast
    ensures Runs(eps, s, steps, t)
    ensures var j, ep := s.jobs[i], eps[s.jobs[i].at];
            var take := TakeFor(eps, j, i, link);
            var told := Claims.Told(s.c, take, Space.Dedup);
            t == s.(c := Claims.Do(s.c, take, Space.Dedup), jobs := s.jobs[i := Tried(ep, j, told, writes)],
                    wire := s.wire + CopiesPut(ep, i, j, told, writes))
  {
    var j, ep := s.jobs[i], eps[s.jobs[i].at];
    var told := Claims.Told(s.c, TakeFor(eps, j, i, link), Space.Dedup);
    var mid := Do(eps, s, Claim(i, link));
    RunsOne(eps, s, Claim(i, link));
    if told && ep.route(j.raw).Some? {
      var g := ep.route(j.raw).value;
      var rest := WritesRun(eps, mid, i, j, 0, writes);
      assert First(i, j, g, 0) == [];
      assert With(mid, i, j.(phase := Writing(0), wrote := 0), mid.wire + First(i, j, g, 0)) == mid;
      t := With(mid, i, WroteOut(j, writes), mid.wire + First(i, j, g, Retransmit.Reach(writes)));
      RunsThen(eps, s, [Claim(i, link)], mid, rest, t);
      steps := [Claim(i, link)] + rest;
    } else {
      steps, t := [Claim(i, link)], mid;
    }
  }

  /** The ACK of a job that is done sending. */
  function AckOfJob(ep: Endpoint, i: nat, j: Job): seq<AckSent>
    requires |j.key| == 16
  {
    var flags := AckFlags(j.multicast, j.unicast);
    if ep.modes.Acks(j.proxied, j.known, flags) then [AckSent(i, flags, U64(j.key[8..]))] else []
  }

  /** The unicast and the answer that end a request. */
  lemma AnswerRun(eps: seq<Endpoint>, s: Cluster.State, i: nat, ok: bool) returns (steps: seq<Step>, t: Cluster.State)
    requires i < |s.jobs| && s.jobs[i].at < |eps| && s.jobs[i].phase == Unicasting && s.jobs[i].answering
    requires |s.jobs[i].key| == 16
    ensures Runs(eps, s, steps, t)
    ensures var j, ep := s.jobs[i], eps[s.jobs[i].at];
            var done := j.(phase := Over, unicast := ep.modes.Unicasts(j.proxied, j.known) && ok);
            t == s.(jobs := s.jobs[i := done], acks := s.acks + AckOfJob(ep, i, done))
  {
    var mid := Do(eps, s, Unicast(i, ok));
    RunsOne(eps, s, Unicast(i, ok));
    t := Do(eps, mid, Answer(i));
    RunsOne(eps, mid, Answer(i));
    RunsThen(eps, s, [Unicast(i, ok)], mid, [Answer(i)], t);
    steps := [Unicast(i, ok)] + [Answer(i)];
  }

  /** How a request that has just started ends. */
  ghost predicate Ends(ep: Endpoint, s: Cluster.State, i: nat, j: Job, link: Link, writes: seq<bool>, ok: bool,
                       t: Cluster.State)
    requires |writes| == |j.order| && |j.key| == 16 && ep.window > 0
  {
    var take := Claims.Take(i, j.key, ep.window, link);
    var told := ep.modes.multicast && Claims.Told(s.c, take, Space.Dedup);
    var sent := if ep.modes.multicast then Tried(ep, j, told, writes) else j;
    var done := sent.(phase := Over, unicast := ep.modes.Unicasts(j.proxied, j.known) && ok);
    && t.own == s.own && t.c == (if ep.modes.multicast then Claims.Do(s.c, take, Space.Dedup) else s.c)
    && t.wire == s.wire + CopiesPut(ep, i, j, told, writes)
    && t.acks == s.acks + if sent.phase == Unicasting then AckOfJob(ep, i, done) else []
  }

  /** A request from its start to its end. */
  lemma JobRun(eps: seq<Endpoint>, s: Cluster.State, i: nat, link: Link, writes: seq<bool>, ok: bool)
    returns (steps: seq<Step>, t: Cluster.State)
    requires i < |s.jobs| && s.jobs[i].at < |eps| && eps[s.jobs[i].at].window > 0
    requires s.jobs[i].phase == StartPhase(eps[s.jobs[i].at]) && s.jobs[i].wrote == 0
    requires s.jobs[i].answering && !s.jobs[i].multicast && |s.jobs[i].key| == 16 && |writes| == |s.jobs[i].order|
    ensures Runs(eps, s, steps, t) && Ends(eps[s.jobs[i].at], s, i, s.jobs[i], link, writes, ok, t)
  {
    var j, ep := s.jobs[i], eps[s.jobs[i].at];
    if ep.modes.multicast {
      var sent, mid := MulticastRun(eps, s, i, link, writes);
      assert mid.jobs[i] == Tried(ep, j, Claims.Told(s.c, TakeFor(eps, j, i, link), Space.Dedup), writes);
      if mid.jobs[i].phase == Unicasting {
        var last;
        last, t := AnswerRun(eps, mid, i, ok);
        RunsThen(eps, s, sent, mid, last, t);
        steps := sent + last;
      } else {
        steps, t := sent, mid;
      }
    } else {
      steps, t := AnswerRun(eps, s, i, ok);
    }
  }

  // ── the server's request ──────────────────────────────────────────────────

  /** The cluster's claim is the server's. */
  lemma SameClaim(ep: Endpoint, cfg: Setup, st: Claims.State, i: nat, raw: seq<byte>, key: seq<byte>, link: Link)
    requires Same(ep, cfg) && Ingress.KeyedBy(raw, key)
    ensures var take := Claims.Take(i, key, ep.window, link);
            && Claims.Told(st, take, Space.Dedup) == cfg.net.Wins(st.m, raw, st.now, link)
            && Claims.Do(st, take, Space.Dedup).m == cfg.net.ClaimsAfter(st.m, raw, st.now, link)
  {
    var take := Claims.Take(i, key, ep.window, link);
    assert Claims.TakeOp(Space.Dedup, take) == cfg.net.ClaimOp(raw);
  }

  /** The answer a stage earns is the ACK its job gives. */
  lemma SameAck(ep: Endpoint, i: nat, j: Job, n: Nack, src: Option<Addr>, multicast: bool, unicast: bool)
    requires |j.key| == 16 && U64(j.key[8..]) == n.startSeq && j.proxied == n.Proxied() && j.known == src.Some?
    requires j.multicast == multicast && j.unicast == unicast
    ensures AckOfJob(ep, i, j) == AcksIn(ResponseFor(Served(multicast, unicast), n, src.Some?, ep.modes), i)
  {
  }

  /** How the server's stage shows in the job. */
  lemma SameStage(ep: Endpoint, cfg: Setup, j: Job, n: Nack, src: Option<Addr>, w: World, stage: Stage,
                  b: Books, c: Books)
    requires Same(ep, cfg) && j.answering && !j.multicast && j.phase == StartPhase(ep)
    requires |w.writes| == |w.order| && Sends(cfg, j.raw, n, src, w, stage, b, c)
    ensures var told := ep.modes.multicast && MayMulticast(cfg, b.claims, j.raw, w);
            var sent := if ep.modes.multicast then Tried(ep, j, told, w.writes) else j;
            var unicast := ep.modes.Unicasts(n.Proxied(), src.Some?) && w.unicastOk;
            if sent.phase == Unicasting then stage == Served(sent.multicast, unicast) else stage == SendFailed
  {
  }

  /** What a server's hit puts on the wire, and what it leaves of the claims. */
  function Wired(cfg: Setup, raw: seq<byte>, w: World, b: Books): seq<Retransmit.Write>
    requires |w.writes| == |w.order|
  {
    if cfg.modes.multicast
    then cfg.net.Puts(b.claims, raw, Retransmit.TxIDOf(raw), w.claimAt, w.claim, w.order, w.writes) else []
  }

  lemma SentBooks(cfg: Setup, raw: seq<byte>, n: Nack, src: Option<Addr>, w: World, stage: Stage, b: Books, c: Books)
    requires |w.writes| == |w.order| && Sends(cfg, raw, n, src, w, stage, b, c)
    ensures c.wire == b.wire + Wired(cfg, raw, w, b) && c.wire[|b.wire|..] == Wired(cfg, raw, w, b)
    ensures c.claims == if cfg.modes.multicast then cfg.net.ClaimsAfter(b.claims, raw, w.claimAt, w.claim) else b.claims
  {
  }

  lemma SameWire(ep: Endpoint, cfg: Setup, i: nat, j: Job, w: World, b: Books)
    requires Same(ep, cfg) && j.order == w.order && |w.writes| == |w.order|
    ensures CopiesPut(ep, i, j, ep.modes.multicast && MayMulticast(cfg, b.claims, j.raw, w), w.writes)
            == Tag(i, Wired(cfg, j.raw, w, b))
  {
    if ep.route(j.raw).Some? { FirstTagged(i, j, ep.route(j.raw).value, Retransmit.Reach(w.writes)); }
  }

  /** What `Ends` means for a server's hit. */
  lemma EndsAsSent(ep: Endpoint, cfg: Setup, s: Cluster.State, i: nat, j: Job, n: Nack, src: Option<Addr>, w: World,
                   stage: Stage, b: Books, c: Books, t: Cluster.State)
    requires Same(ep, cfg) && Ingress.KeyedBy(j.raw, j.key) && j.key == FlowKey(n.hashKey, n.startSeq)
    requires j.order == w.order && |w.writes| == |w.order| && j.proxied == n.Proxied() && j.known == src.Some?
    requires j.answering && !j.multicast && j.phase == StartPhase(ep)
    requires b.claims == s.c.m && w.claimAt == s.c.now && Sends(cfg, j.raw, n, src, w, stage, b, c)
    requires Ends(ep, s, i, j, w.claim, w.writes, w.unicastOk, t)
    ensures t.c.m == c.claims
    ensures b.wire <= c.wire && t.wire == s.wire + Tag(i, c.wire[|b.wire|..])
    ensures t.acks == s.acks + AcksIn(ResponseFor(stage, n, src.Some?, cfg.modes), i)
  {
    SameClaim(ep, cfg, s.c, i, j.raw, j.key, w.claim);
    SentBooks(cfg, j.raw, n, src, w, stage, b, c);
    SameWire(ep, cfg, i, j, w, b);
    SameAnswer(ep, cfg, i, j, n, src, w, stage, b, c);
  }

  /** The ACK that ends the job is the server's. */
  lemma SameAnswer(ep: Endpoint, cfg: Setup, i: nat, j: Job, n: Nack, src: Option<Addr>, w: World, stage: Stage,
                   b: Books, c: Books)
    requires Same(ep, cfg) && j.key == FlowKey(n.hashKey, n.startSeq)
    requires |w.writes| == |w.order| && j.proxied == n.Proxied() && j.known == src.Some?
    requires j.answering && !j.multicast && j.phase == StartPhase(ep)
    requires Sends(cfg, j.raw, n, src, w, stage, b, c)
    ensures var told := ep.modes.multicast && MayMulticast(cfg, b.claims, j.raw, w);
            var sent := if ep.modes.multicast then Tried(ep, j, told, w.writes) else j;
            var done := sent.(phase := Over, unicast := ep.modes.Unicasts(j.proxied, j.known) && w.unicastOk);
            (if sent.phase == Unicasting then AckOfJob(ep, i, done) else [])
            == AcksIn(ResponseFor(stage, n, src.Some?, cfg.modes), i)
  {
    SameStage(ep, cfg, j, n, src, w, stage, b, c);
    var told := ep.modes.multicast && MayMulticast(cfg, b.claims, j.raw, w);
    var sent := if ep.modes.multicast then Tried(ep, j, told, w.writes) else j;
    var done := sent.(phase := Over, unicast := ep.modes.Unicasts(j.proxied, j.known) && w.unicastOk);
    if sent.phase == Unicasting { SameAck(ep, i, done, n, src, done.multicast, done.unicast); }
  }

  /** An ACK as the cluster logs it. */
  function AcksIn(r: Option<Response>, i: nat): seq<AckSent>
  {
    if r.Some? && r.value.Ack? then [AckSent(i, r.value.flags, r.value.seqNum)] else []
  }

  /**
   A hit past the server's tiers, whether it is served or its multicast fails, is a run of
   the cluster from the state it found: the claim store and the cache end the same, the
   same bytes are on the same sockets in the same order, and there is an ACK exactly when
   the server sends one, with its flags and number.
   */
  lemma ServedAloneIsARun(eps: seq<Endpoint>, s: Cluster.State, e: nat, cfg: Setup, n: Nack, src: Option<Addr>,
                          w: World, stage: Stage, b: Books, c: Books) returns (steps: seq<Step>, t: Cluster.State)
    requires e < |eps| && Same(eps[e], cfg) && cfg.shared == (e !in s.own) && IsOrder(w.order, eps[e].sockets)
    requires b.cached == FramesOf(s, e) && b.claims == s.c.m && w.lookupAt == w.claimAt == s.c.now
    requires Live(b.cached, FrameKey(n), s.c.now) && |w.writes| == |w.order|
    requires Ingress.KeyedBy(b.cached[FrameKey(n)].value, FlowKey(n.hashKey, n.startSeq))
    requires Sends(cfg, b.cached[FrameKey(n)].value, n, src, w, stage, b, c)
    ensures Runs(eps, s, steps, t) && t.c.m == c.claims && FramesOf(t, e) == c.cached
    ensures b.wire <= c.wire && t.wire == s.wire + Tag(|s.jobs|, c.wire[|b.wire|..])
    ensures t.acks == s.acks + AcksIn(ResponseFor(stage, n, src.Some?, cfg.modes), |s.jobs|)
  {
    var i, ask := |s.jobs|, Step.Ask(e, n.hashKey, n.startSeq, n.Proxied(), src.Some?, w.order);
    var asked := Do(eps, s, ask);
    RunsOne(eps, s, ask);
    var rest;
    rest, t := JobRun(eps, asked, i, w.claim, w.writes, w.unicastOk);
    RunsThen(eps, s, [ask], asked, rest, t);
    steps := [ask] + rest;
    EndsAsSent(eps[e], cfg, asked, i, asked.jobs[i], n, src, w, stage, b, c, t);
  }

  // ── a recovered frame ─────────────────────────────────────────────────────

  /** The endpoint of the cluster that a proxy client's wiring describes. */
  ghost predicate SameClient(ep: Endpoint, cfg: Proxy.Wiring)
  {
    && cfg.multicast == ep.modes.multicast && cfg.unicast == ep.modes.unicast
    && cfg.net.claiming && cfg.net.window == ep.window > 0
    && forall raw :: ep.route(raw) == cfg.net.Group(raw, Retransmit.TxIDOf(raw))
  }

  /** The stores of the client are those of endpoint `e`. */
  ghost predicate SameStores(s: Cluster.State, e: nat, cfg: Proxy.Wiring, st: Proxy.Stores)
  {
    cfg.framesAreClaims == (e !in s.own) && st.frames == FramesOf(s, e) && st.claims == s.c.m
  }

  /** Keeping the frame is the cluster's re-cache. */
  lemma KeptRun(eps: seq<Endpoint>, s: Cluster.State, e: nat, cfg: Proxy.Wiring, raw: seq<byte>, w: Proxy.Trip,
                st: Proxy.Stores) returns (step: Step, t: Cluster.State)
    requires e < |eps| && SameStores(s, e, cfg, st) && Proxy.IsFrame(raw) && w.storeAt == s.c.now
    ensures Runs(eps, s, [step], t) && SameStores(t, e, cfg, Proxy.Kept(cfg, raw, w, st))
    ensures t == s.(c := t.c, own := t.own) && t.c.now == s.c.now
  {
    step := Cache(e, raw, cfg.ttls.For(raw[6]), w.store);
    t := Do(eps, s, step);
    RunsOne(eps, s, step);
  }

  /** How a recovered frame that has just been kept ends. */
  ghost predicate Reinjects(ep: Endpoint, s: Cluster.State, i: nat, j: Job, w: Proxy.Trip, t: Cluster.State)
    requires |w.writes| == |j.order| && ep.window > 0
  {
    var take := Claims.Take(i, j.key, ep.window, w.send);
    var told := ep.modes.multicast && Claims.Told(s.c, take, Space.Dedup);
    && t.own == s.own && t.c == (if ep.modes.multicast then Claims.Do(s.c, take, Space.Dedup) else s.c)
    && t.wire == s.wire + CopiesPut(ep, i, j, told, w.writes) && t.acks == s.acks
    && i < |t.jobs| && t.jobs[i].phase == Over && t.jobs[i].raw == j.raw
    && t.jobs[i].unicast == (ep.modes.unicast && j.known && w.unicastOk)
  }

  /** The unicast that ends the job of a recovered frame. */
  lemma LastUnicast(eps: seq<Endpoint>, s: Cluster.State, i: nat, ok: bool) returns (t: Cluster.State)
    requires i < |s.jobs| && s.jobs[i].at < |eps| && s.jobs[i].phase == Unicasting && !s.jobs[i].answering
    ensures Runs(eps, s, [Unicast(i, ok)], t)
    ensures var j := s.jobs[i];
            var done := j.(phase := Over, unicast := eps[j.at].modes.unicast && j.known && ok);
            t == s.(jobs := s.jobs[i := done])
  {
    t := Do(eps, s, Unicast(i, ok));
    RunsOne(eps, s, Unicast(i, ok));
  }

  lemma ReinjectRun(eps: seq<Endpoint>, s: Cluster.State, i: nat, w: Proxy.Trip)
    returns (steps: seq<Step>, t: Cluster.State)
    requires i < |s.jobs| && s.jobs[i].at < |eps| && eps[s.jobs[i].at].window > 0
    requires s.jobs[i].phase == StartPhase(eps[s.jobs[i].at]) && s.jobs[i].wrote == 0
    requires !s.jobs[i].answering && !s.jobs[i].multicast && |w.writes| == |s.jobs[i].order|
    ensures Runs(eps, s, steps, t) && Reinjects(eps[s.jobs[i].at], s, i, s.jobs[i], w, t)
  {
    var j, ep := s.jobs[i], eps[s.jobs[i].at];
    if ep.modes.multicast {
      var sent, mid := MulticastRun(eps, s, i, w.send, w.writes);
      assert mid.jobs[i] == Tried(ep, j, Claims.Told(s.c, TakeFor(eps, j, i, w.send), Space.Dedup), w.writes);
      t := LastUnicast(eps, mid, i, w.unicastOk);
      RunsThen(eps, s, sent, mid, [Unicast(i, w.unicastOk)], t);
      steps := sent + [Unicast(i, w.unicastOk)];
    } else {
      steps := [Unicast(i, w.unicastOk)];
      t := LastUnicast(eps, s, i, w.unicastOk);
    }
  }

  /** The claim and the copies of the cluster's job are the client's. */
  lemma ReinjectsAsSent(ep: Endpoint, cfg: Proxy.Wiring, s: Cluster.State, e: nat, i: nat, j: Job, w: Proxy.Trip,
                        st: Proxy.Stores, t: Cluster.State)
    requires SameClient(ep, cfg) && SameStores(s, e, cfg, st) && w.sendAt == s.c.now
    requires Proxy.IsFrame(j.raw) && j.key == KeyBytes(j.raw) && j.order == w.order && |w.writes| == |w.order|
    requires Reinjects(ep, s, i, j, w, t)
    ensures SameStores(t, e, cfg, if cfg.multicast then Proxy.Reclaimed(cfg, j.raw, w, st) else st)
    ensures t.wire == s.wire + Tag(i,
              if cfg.multicast
              then cfg.net.Puts(st.claims, j.raw, Retransmit.TxIDOf(j.raw), w.sendAt, w.send, w.order, w.writes)
              else [])
  {
    var take := Claims.Take(i, j.key, ep.window, w.send);
    assert Claims.TakeOp(Space.Dedup, take) == cfg.net.ClaimOp(j.raw);
    if ep.route(j.raw).Some? { FirstTagged(i, j, ep.route(j.raw).value, Retransmit.Reach(w.writes)); }
  }

  /**
   The delivery of a recovered frame is a run of the cluster too: the cache and the claim
   store end the same, the same bytes are on the same sockets in the same order, its unicast
   is the job's, and no ACK is given.
   */
  lemma DeliveredAloneIsARun(eps: seq<Endpoint>, s: Cluster.State, e: nat, cfg: Proxy.Wiring, raw: seq<byte>,
                             j: Proxy.Job, w: Proxy.Trip, st: Proxy.Stores)
    returns (steps: seq<Step>, t: Cluster.State)
    requires e < |eps| && SameClient(eps[e], cfg) && SameStores(s, e, cfg, st) && IsOrder(w.order, eps[e].sockets)
    requires Proxy.IsFrame(raw) && |w.writes| == |w.order| && w.storeAt == s.c.now <= w.sendAt
    ensures Runs(eps, s, steps, t) && SameStores(t, e, cfg, Proxy.Delivered(cfg, raw, w, st))
    ensures t.wire == s.wire + Tag(|s.jobs|, Proxy.Reinjected(cfg, raw, w, st)) && t.acks == s.acks
    ensures |s.jobs| < |t.jobs| && t.jobs[|s.jobs|].phase == Over && t.jobs[|s.jobs|].raw == raw
    ensures t.jobs[|s.jobs|].unicast == (cfg.unicast && j.requester.Some? && w.unicastOk)
  {
    var i, wait := |s.jobs|, Tick(w.sendAt - w.storeAt);
    var start := Recovered(e, raw, j.requester.Some?, w.order);
    var keep, kept := KeptRun(eps, s, e, cfg, raw, w, st);
    var later := Do(eps, kept, wait);
    RunsOne(eps, kept, wait);
    var ready := Do(eps, later, start);
    RunsOne(eps, later, start);
    var rest;
    rest, t := ReinjectRun(eps, ready, i, w);
    RunsThen(eps, s, [keep], kept, [wait], later);
    RunsThen(eps, s, [keep] + [wait], later, [start], ready);
    RunsThen(eps, s, [keep] + [wait] + [start], ready, rest, t);
    steps := [keep] + [wait] + [start] + rest;
    ReinjectsAsSent(eps[e], cfg, ready, e, i, ready.jobs[i], w, Proxy.Kept(cfg, raw, w, st), t);
  }
}
