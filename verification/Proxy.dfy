/** Recovering a missed frame from an endpoint of another domain. */
module Proxy {
  import opened Bytes
  import opened TtlStore
  import opened Cache
  import opened Frames
  import opened Wire
  import Claims
  import Ingress
  import Retransmit

  datatype Job = Job(hashKey: uint64, seqNum: uint64, subtree: seq<byte>, requester: Option<Addr>)

  // ── the claim on a recovery ───────────────────────────────────────────────

  /** Whom a claim is for: each requester under unicast delivery, everyone otherwise. */
  function ClaimedFor(j: Job, unicast: bool): Option<Addr>
  {
    if unicast then j.requester else None
  }

  function PortBytes(p: bv16): (b: seq<byte>)
    ensures |b| == 2 && U16(b) == p
  {
    [(p >> 8) as byte, (p & 0xFF) as byte]
  }

  /** The requester's address bytes and port. */
  function AddrBytes(who: Option<Addr>): seq<byte>
  {
    if who.None? then [] else who.value.ip + PortBytes(who.value.port)
  }

  function ClaimKey(j: Job, unicast: bool): seq<byte>
  {
    FlowKey(j.hashKey, j.seqNum) + AddrBytes(ClaimedFor(j, unicast))
  }

  /** Address bytes tell requesters apart, and any requester from none. */
  lemma AddrBytesInjective(a: Option<Addr>, b: Option<Addr>)
    requires AddrBytes(a) == AddrBytes(b)
    ensures a == b
  {
    var k, l := AddrBytes(a), AddrBytes(b);
    if a.Some? && b.Some? {
      var n := |k| - 2;
      assert k[..n] == a.value.ip && l[..n] == b.value.ip;
      assert k[n..] == PortBytes(a.value.port) && l[n..] == PortBytes(b.value.port);
    }
  }

  /**
   Two jobs contend for one claim exactly when they want the same gap filled for the same
   requester; in particular a claim for everyone never meets one for a requester.
   */
  lemma SameClaimIff(a: Job, u: bool, b: Job, v: bool)
    ensures ClaimKey(a, u) == ClaimKey(b, v) <==>
            a.hashKey == b.hashKey && a.seqNum == b.seqNum && ClaimedFor(a, u) == ClaimedFor(b, v)
  {
    if ClaimKey(a, u) == ClaimKey(b, v) {
      var g, h := FlowKey(a.hashKey, a.seqNum), FlowKey(b.hashKey, b.seqNum);
      var t, w := AddrBytes(ClaimedFor(a, u)), AddrBytes(ClaimedFor(b, v));
      assert g == (g + t)[..16] == (h + w)[..16] == h;
      assert t == (g + t)[16..] == (h + w)[16..] == w;
      AddrBytesInjective(ClaimedFor(a, u), ClaimedFor(b, v));
    }
  }

  /**
   Without unicast delivery one claim serves everybody who wants a gap filled; with it
   each requester has a claim of its own, since only it will be sent the frame.
   */
  lemma ClaimsByRequester(a: Job, b: Job)
    ensures ClaimKey(a, false) == ClaimKey(b, false) <==> a.hashKey == b.hashKey && a.seqNum == b.seqNum
    ensures ClaimKey(a, true) == ClaimKey(b, true) <==>
            a.hashKey == b.hashKey && a.seqNum == b.seqNum && a.requester == b.requester
  {
    SameClaimIff(a, false, b, false);
    SameClaimIff(a, true, b, true);
  }

  datatype Claimant = Claimant(job: Job, unicast: bool)

  /** Every claim is one of the jobs', under that job's key. */
  predicate ByJobs(ev: Claims.Event, js: seq<Claimant>)
  {
    ev.Take? ==> ev.who < |js| && ev.key == ClaimKey(js[ev.who].job, js[ev.who].unicast)
  }

  ghost predicate LogByJobs(log: seq<Claims.Claim>, js: seq<Claimant>)
  {
    forall i :: 0 <= i < |log| ==>
      log[i].who < |js| && log[i].key == ClaimKey(js[log[i].who].job, js[log[i].who].unicast)
  }

  lemma StepLogByJobs(st: Claims.State, ev: Claims.Event, js: seq<Claimant>)
    requires Claims.Proper(ev, Space.Proxy) && LogByJobs(st.log, js) && ByJobs(ev, js)
    ensures LogByJobs(Claims.Do(st, ev, Space.Proxy).log, js)
  {
  }

  lemma {:induction false} RunLogByJobs(st: Claims.State, evs: seq<Claims.Event>, end: Claims.State, js: seq<Claimant>)
    requires Claims.Runs(st, evs, Space.Proxy, end) && LogByJobs(st.log, js)
    requires forall e :: e in evs ==> ByJobs(e, js)
    ensures LogByJobs(end.log, js)
    decreases |evs|
  {
    if evs != [] {
      StepLogByJobs(st, evs[0], js);
      RunLogByJobs(Claims.Do(st, evs[0], Space.Proxy), evs[1..], end, js);
    }
  }

  /** A running claim for the gap of `j`, on behalf of the same requester. */
  ghost predicate InFlight(st: Claims.State, js: seq<Claimant>, j: Claimant)
    requires LogByJobs(st.log, js)
  {
    exists i :: 0 <= i < |st.log| && st.now < st.log[i].Until() && SameErrand(js[st.log[i].who], j)
  }

  predicate SameErrand(a: Claimant, b: Claimant)
  {
    && a.job.hashKey == b.job.hashKey && a.job.seqNum == b.job.seqNum
    && ClaimedFor(a.job, a.unicast) == ClaimedFor(b.job, b.unicast)
  }

  /**
   In any run of claims by sibling endpoints, a job whose claim is answered is skipped
   exactly when an earlier claim of the same gap, for the same requester, is running.
   */
  lemma SkippedIffInFlight(m: Entries, now: int, evs: seq<Claims.Event>, st: Claims.State, js: seq<Claimant>,
                           who: nat, window: int)
    requires forall k :: Full(Space.Proxy, k) !in m
    requires Claims.Runs(Claims.State(m, now, []), evs, Space.Proxy, st)
    requires forall e :: e in evs ==> ByJobs(e, js)
    requires who < |js| && window > 0
    ensures LogByJobs(st.log, js)
    ensures var ev := Claims.Take(who, ClaimKey(js[who].job, js[who].unicast), window, Works);
            !Claims.Told(st, ev, Space.Proxy) <==> InFlight(st, js, js[who])
  {
    var key := ClaimKey(js[who].job, js[who].unicast);
    Claims.RunInv(Claims.State(m, now, []), evs, Space.Proxy, st);
    RunLogByJobs(Claims.State(m, now, []), evs, st, js);
    Claims.RefusedIffRunning(st, Claims.Take(who, key, window, Works), Space.Proxy);
    forall i | 0 <= i < |st.log| ensures st.log[i].key == key <==> SameErrand(js[st.log[i].who], js[who]) {
      var c := js[st.log[i].who];
      SameClaimIff(c.job, c.unicast, js[who].job, js[who].unicast);
    }
  }

  // ── reading what an upstream sends back ───────────────────────────────────

  const BUFFER := 65536

  /** A datagram taken for the frame. */
  predicate IsFrame(d: seq<byte>)
  {
    |d| >= HEADER_SIZE && d[..4] == MAGIC && d[6] != MSG_ACK && d[6] != MSG_MISS
  }

  /** A datagram taken for the upstream's refusal. */
  predicate IsMiss(d: seq<byte>)
  {
    |d| == RESPONSE_SIZE && d[6] == MSG_MISS
  }

  predicate PassedOver(d: seq<byte>)
  {
    !IsFrame(d) && !IsMiss(d)
  }

  /** What the arrivals amount to: the first frame, unless a refusal came before it. */
  function Fetched(arrivals: seq<seq<byte>>): (r: Option<seq<byte>>)
    ensures r.Some? ==> IsFrame(r.value)
    decreases |arrivals|
  {
    if arrivals == [] then None
    else if IsFrame(arrivals[0]) then Some(arrivals[0])
    else if IsMiss(arrivals[0]) then None
    else Fetched(arrivals[1..])
  }

  lemma {:induction false} FetchedSkips(before: seq<seq<byte>>, rest: seq<seq<byte>>)
    requires forall d :: d in before ==> PassedOver(d)
    ensures Fetched(before + rest) == Fetched(rest)
    decreases |before|
  {
    if before == [] {
      assert before + rest == rest;
    } else {
      assert PassedOver(before[0]);
      assert (before + rest)[1..] == before[1..] + rest;
      FetchedSkips(before[1..], rest);
    }
  }

  /** ACKs, THROTTLEDs and any other short datagram but a MISS do not end the wait. */
  lemma ResponsesArePassedOver(d: seq<byte>)
    ensures |d| < HEADER_SIZE && |d| != RESPONSE_SIZE ==> PassedOver(d)
    ensures forall r: Response :: d == ResponseBytes(r) ==> (PassedOver(d) <==> !r.Miss?)
  {
  }

  /**
   What the next arrival does to the wait: a full header with the magic that is typed
   neither ACK nor MISS ends it with that frame, 16 bytes typed MISS end it with nothing,
   and anything else leaves it to the arrivals after.
   */
  lemma NextArrival(d: seq<byte>, rest: seq<seq<byte>>)
    ensures Fetched([d] + rest) ==
            if |d| >= 92 && d[..4] == [0xE3, 0xE1, 0xF3, 0xE8] && d[6] != 0x12 && d[6] != 0x11 then Some(d)
            else if |d| == 16 && d[6] == 0x11 then None
            else Fetched(rest)
  {
    assert ([d] + rest)[1..] == rest;
  }

  /**
   A cached frame that an upstream sends back, after any number of datagrams that are
   passed over, is what the fetch returns, byte for byte, exactly when it is at least a
   full header long; a shorter one (only a bundle can be) is passed over itself.
   */
  lemma CachedFrameComesBack(before: seq<seq<byte>>, raw: seq<byte>, rest: seq<seq<byte>>)
    requires Framed(raw) && forall d :: d in before ==> PassedOver(d)
    ensures |raw| >= HEADER_SIZE ==> Fetched(before + [raw] + rest) == Some(raw)
    ensures |raw| < HEADER_SIZE ==> Fetched(before + [raw] + rest) == Fetched(rest)
  {
    assert before + [raw] + rest == before + ([raw] + rest);
    FetchedSkips(before, [raw] + rest);
    assert ([raw] + rest)[1..] == rest;
  }

  // ── the client ────────────────────────────────────────────────────────────

  /** What the world does to one fetch. */
  datatype Exchange = Exchange(ready: bool, sent: bool, arrivals: seq<seq<byte>>)

  /** What the world does to one recovery; `stopAt` is the attempt at which it is cancelled. */
  datatype Trip = Trip(claimAt: int, claim: Link, tries: seq<Exchange>, stopAt: nat,
                       storeAt: int, store: Link, sendAt: int, send: Link,
                       order: seq<nat>, writes: seq<bool>, unicastOk: bool)

  datatype Result = Skipped | Stopped | Exhausted | Got(raw: seq<byte>)

  predicate Deliverable(x: Exchange)
  {
    forall d :: d in x.arrivals ==> |d| <= BUFFER
  }

  function AskFor(j: Job): Nack
  {
    Nack(FLAG_PROXIED, j.hashKey, j.seqNum, j.seqNum, j.subtree)
  }

  predicate GetsOut(x: Exchange)
  {
    x.ready && x.sent
  }

  /** What one exchange brings back. */
  function Yield(x: Exchange): (r: Option<seq<byte>>)
    ensures r.Some? ==> IsFrame(r.value)
  {
    if GetsOut(x) then Fetched(x.arrivals) else None
  }

  /** The `i`th upstream has its turn: nobody before it returned a frame, and nothing stopped the recovery. */
  ghost predicate HasTurn(tries: seq<Exchange>, stopAt: nat, i: nat)
  {
    i < |tries| && i < stopAt && forall k :: 0 <= k < i ==> Yield(tries[k]).None?
  }

  /** How many upstreams have had their turn in the end, when `i` had it and returned nothing. */
  function Turns(tries: seq<Exchange>, stopAt: nat, i: nat): (n: nat)
    requires i <= |tries| && i <= stopAt
    ensures i <= n <= |tries| && n <= stopAt
    ensures forall k :: i <= k && k + 1 < n ==> Yield(tries[k]).None?
    ensures n < |tries| && n < stopAt ==> n > i && Yield(tries[n - 1]).Some?
    decreases |tries| - i
  {
    if i == |tries| || i == stopAt then i
    else if Yield(tries[i]).Some? then i + 1
    else Turns(tries, stopAt, i + 1)
  }

  lemma TurnsIff(tries: seq<Exchange>, stopAt: nat, i: nat)
    ensures HasTurn(tries, stopAt, i) <==> i < Turns(tries, stopAt, 0)
  {
    var n := Turns(tries, stopAt, 0);
    assert forall k :: 0 <= k && k + 1 < n ==> Yield(tries[k]).None?;
  }

  /** What the last upstream to have its turn returns. */
  function Found(tries: seq<Exchange>, stopAt: nat): (r: Option<seq<byte>>)
    ensures r.Some? ==> IsFrame(r.value)
  {
    var n := Turns(tries, stopAt, 0);
    if n == 0 then None else Yield(tries[n - 1])
  }

  /** The frame comes from the first upstream that returns one. */
  lemma FoundIsFirst(tries: seq<Exchange>, stopAt: nat, i: nat)
    requires HasTurn(tries, stopAt, i) && Yield(tries[i]).Some?
    ensures Found(tries, stopAt) == Yield(tries[i])
  {
    TurnsIff(tries, stopAt, i);
    TurnsIff(tries, stopAt, i + 1);
  }

  /** The request of one exchange, if it gets out. */
  function Question(to: Addr, x: Exchange, body: seq<byte>): seq<(Addr, seq<byte>)>
  {
    if GetsOut(x) then [(to, body)] else []
  }

  /** The requests of the first `n` turns. */
  function Questions(ups: seq<Addr>, tries: seq<Exchange>, n: nat, body: seq<byte>): seq<(Addr, seq<byte>)>
    requires n <= |tries| <= |ups|
  {
    if n == 0 then [] else Questions(ups, tries, n - 1, body) + Question(ups[n - 1], tries[n - 1], body)
  }

  /** All the requests of a recovery. */
  function Inquiry(ups: seq<Addr>, tries: seq<Exchange>, stopAt: nat, body: seq<byte>): seq<(Addr, seq<byte>)>
    requires |tries| <= |ups|
  {
    Questions(ups, tries, Turns(tries, stopAt, 0), body)
  }

  /**
   Each upstream is asked in its turn: the request that the `i`th exchange gets out goes to
   the `i`th upstream, right after those of the turns before it; past the last turn none is sent.
   */
  lemma AskedInTurn(ups: seq<Addr>, tries: seq<Exchange>, stopAt: nat, body: seq<byte>, i: nat)
    requires i <= |tries| <= |ups|
    ensures HasTurn(tries, stopAt, i) ==>
              Questions(ups, tries, i, body) + Question(ups[i], tries[i], body) <= Inquiry(ups, tries, stopAt, body)
    ensures !HasTurn(tries, stopAt, i) && (i > 0 ==> HasTurn(tries, stopAt, i - 1)) ==>
              Inquiry(ups, tries, stopAt, body) == Questions(ups, tries, i, body)
  {
    TurnsIff(tries, stopAt, i);
    if HasTurn(tries, stopAt, i) {
      QuestionsPrefix(ups, tries, i + 1, Turns(tries, stopAt, 0), body);
    } else if i > 0 {
      TurnsIff(tries, stopAt, i - 1);
    }
  }

  lemma {:induction false} QuestionsPrefix(ups: seq<Addr>, tries: seq<Exchange>, i: nat, n: nat, body: seq<byte>)
    requires i <= n <= |tries| <= |ups|
    ensures Questions(ups, tries, i, body) <= Questions(ups, tries, n, body)
  {
    if i < n { QuestionsPrefix(ups, tries, i, n - 1, body); }
  }

  /** At most `n` requests, each of them `body` to one of the first `n` upstreams. */
  ghost predicate Asked(asked: seq<(Addr, seq<byte>)>, ups: seq<Addr>, body: seq<byte>, n: nat)
  {
    |asked| <= n && forall q :: q in asked ==> q.1 == body && AmongFirst(ups, n, q.0)
  }

  ghost predicate AmongFirst(ups: seq<Addr>, n: nat, to: Addr)
  {
    exists i :: 0 <= i < n && i < |ups| && to == ups[i]
  }

  lemma {:induction false} QuestionsAsked(ups: seq<Addr>, tries: seq<Exchange>, n: nat, body: seq<byte>)
    requires n <= |tries| <= |ups|
    ensures Asked(Questions(ups, tries, n, body), ups, body, n)
  {
    if n > 0 {
      QuestionsAsked(ups, tries, n - 1, body);
      assert AmongFirst(ups, n, ups[n - 1]);
      forall q | q in Questions(ups, tries, n - 1, body) ensures AmongFirst(ups, n, q.0) {
        assert AmongFirst(ups, n - 1, q.0);
      }
    }
  }

  /** A recovery asks at most as many upstreams as it may, and asks them only what it is for. */
  lemma InquiryAsked(ups: seq<Addr>, tries: seq<Exchange>, stopAt: nat, body: seq<byte>)
    requires |tries| <= |ups|
    ensures Asked(Inquiry(ups, tries, stopAt, body), ups, body, |tries|)
  {
    var n := Turns(tries, stopAt, 0);
    QuestionsAsked(ups, tries, n, body);
    forall q | q in Questions(ups, tries, n, body) ensures AmongFirst(ups, |tries|, q.0) {
      assert AmongFirst(ups, n, q.0);
    }
  }

  // ── the stores a recovery goes through ────────────────────────────────────

  /** What the three views' backends hold; `flights` is where recoveries are claimed. */
  datatype Stores = Stores(frames: Entries, claims: Entries, flights: Entries)

  /** How a client is set up, and which of its views are of one backend. */
  datatype Wiring = Wiring(net: Retransmit.Sender, ttls: Ttls, multicast: bool, unicast: bool, claiming: bool,
                           window: int, framesAreClaims: bool, framesAreFlights: bool, claimsAreFlights: bool)

  function FlightOp(cfg: Wiring, j: Job): Op
  {
    SetNX(ClaimKey(j, cfg.unicast), CLAIMED, cfg.window)
  }

  /** The job is not given up: there is nothing to claim in, asking failed, or the claim was won. */
  predicate GoesOn(cfg: Wiring, j: Job, w: Trip, st: Stores)
  {
    cfg.claiming && w.claim == Works ==> !Live(st.flights, Full(Space.Proxy, ClaimKey(j, cfg.unicast)), w.claimAt)
  }

  /** The client's claim is the claim `SkippedIffInFlight` is about. */
  lemma ClaimIsTake(cfg: Wiring, j: Job, w: Trip, st: Stores, who: nat, log: seq<Claims.Claim>)
    requires cfg.claiming && cfg.window > 0
    ensures var before := Claims.State(st.flights, w.claimAt, log);
            var take := Claims.Take(who, ClaimKey(j, cfg.unicast), cfg.window, w.claim);
            && Claimed(cfg, j, w, st).flights == Claims.Do(before, take, Space.Proxy).m
            && (GoesOn(cfg, j, w, st) <==> w.claim != Works || Claims.Told(before, take, Space.Proxy))
  {
  }

  /** How asking around ends. */
  function Sought(w: Trip): (r: Result)
    ensures r.Got? ==> IsFrame(r.raw)
  {
    if Found(w.tries, w.stopAt).Some? then Got(Found(w.tries, w.stopAt).value)
    else if w.stopAt < |w.tries| then Stopped else Exhausted
  }

  /** Nobody returns a frame: the recovery was cancelled, or every upstream it may ask has had its turn. */
  lemma NothingSought(w: Trip)
    requires forall i: nat :: HasTurn(w.tries, w.stopAt, i) ==> Yield(w.tries[i]).None?
    ensures Sought(w) == if w.stopAt < |w.tries| then Stopped else Exhausted
  {
    var n := Turns(w.tries, w.stopAt, 0);
    if n > 0 { TurnsIff(w.tries, w.stopAt, n - 1); }
  }

  /** How a recovery ends. */
  function ResultOf(cfg: Wiring, j: Job, w: Trip, st: Stores): (r: Result)
    ensures r.Got? ==> IsFrame(r.raw)
  {
    if GoesOn(cfg, j, w, st) then Sought(w) else Skipped
  }

  /** After asking for the claim. */
  function Claimed(cfg: Wiring, j: Job, w: Trip, st: Stores): Stores
  {
    if !cfg.claiming then st
    else
      var m := Effect(st.flights, Within(Space.Proxy, FlightOp(cfg, j)), w.claimAt, w.claim);
      Stores(if cfg.framesAreFlights then m else st.frames, if cfg.claimsAreFlights then m else st.claims, m)
  }

  /** After keeping the frame. */
  function Kept(cfg: Wiring, raw: seq<byte>, w: Trip, st: Stores): Stores
    requires IsFrame(raw)
  {
    var m := Effect(st.frames, Within(Space.Frames, Set(KeyBytes(raw), raw, cfg.ttls.For(raw[6]))), w.storeAt, w.store);
    Stores(m, if cfg.framesAreClaims then m else st.claims, if cfg.framesAreFlights then m else st.flights)
  }

  /** After claiming the multicast of the frame. */
  function Reclaimed(cfg: Wiring, raw: seq<byte>, w: Trip, st: Stores): Stores
  {
    var m := cfg.net.ClaimsAfter(st.claims, raw, w.sendAt, w.send);
    Stores(if cfg.framesAreClaims then m else st.frames, m, if cfg.claimsAreFlights then m else st.flights)
  }

  /** After a frame has been kept and, in the mode for it, multicast. */
  function Delivered(cfg: Wiring, raw: seq<byte>, w: Trip, st: Stores): Stores
    requires IsFrame(raw)
  {
    var kept := Kept(cfg, raw, w, st);
    if cfg.multicast then Reclaimed(cfg, raw, w, kept) else kept
  }

  /** The copies of a recovered frame that get onto the wire. */
  function Reinjected(cfg: Wiring, raw: seq<byte>, w: Trip, st: Stores): seq<Retransmit.Write>
    requires IsFrame(raw) && |w.writes| == |w.order|
  {
    if cfg.multicast
    then cfg.net.Puts(Kept(cfg, raw, w, st).claims, raw, Retransmit.TxIDOf(raw), w.sendAt, w.send, w.order, w.writes)
    else []
  }

  /** The backend holds the frame under its own key until `expiry`. */
  predicate Has(m: Entries, raw: seq<byte>, expiry: int)
    requires |raw| >= 56
  {
    Full(Space.Frames, KeyBytes(raw)) in m && m[Full(Space.Frames, KeyBytes(raw))] == Entry(raw, expiry)
  }

  class Client {
    const upstreams: seq<Addr>
    const maxEndpoints: nat
    const window: int
    const depth: nat
    const dedup: Store?
    const cache: Store
    const retrans: Retransmit.Retransmitter
    const ttls: Ttls
    const multicast: bool
    const unicast: bool
    var queue: seq<Job>
    var nacks: seq<(Addr, seq<byte>)>  // requests sent upstream

    ghost predicate Valid()
    {
      && maxEndpoints <= |upstreams| && depth >= 1 && window > 0 && cache.space == Space.Frames
      && (dedup != null ==> dedup.space == Space.Proxy) && retrans.Valid()
    }

    constructor (upstreams: seq<Addr>, maxEndpoints: int, window: int, depth: int, dedup: Store?, cache: Store,
                 retrans: Retransmit.Retransmitter, ttls: Ttls, multicast: bool, unicast: bool)
      requires cache.space == Space.Frames && (dedup != null ==> dedup.space == Space.Proxy)
      requires retrans.Valid()
      ensures Valid() && queue == [] && nacks == []
      ensures this.cache == cache && this.dedup == dedup && this.retrans == retrans && this.upstreams == upstreams
      ensures this.multicast == multicast && this.unicast == unicast && this.ttls == ttls
      ensures this.maxEndpoints == if 0 < maxEndpoints <= |upstreams| then maxEndpoints else |upstreams|
      ensures this.window == (if window > 0 then window else 60_000_000_000)
      ensures this.depth == if depth > 0 then depth else 1024
    {
      this.upstreams, this.dedup, this.cache, this.retrans := upstreams, dedup, cache, retrans;
      this.ttls, this.multicast, this.unicast := ttls, multicast, unicast;
      this.maxEndpoints := if maxEndpoints <= 0 || maxEndpoints > |upstreams| then |upstreams| else maxEndpoints;
      this.window := if window <= 0 then 60_000_000_000 else window;
      this.depth := if depth <= 0 then 1024 else depth;
      queue, nacks := [], [];
    }

    /** Queue a job, or drop it when the queue is full. */
    method Enqueue(j: Job) returns (ok: bool)
      requires Valid()
      modifies `queue
      ensures ok <==> |old(queue)| < depth
      ensures queue == old(queue) + if ok then [j] else []
    {
      ok := |queue| < depth;
      if ok {
        queue := queue + [j];
      }
    }

    /** Ask one upstream, and wait for the frame through whatever else arrives. */
    method Fetch(to: Addr, j: Job, x: Exchange) returns (r: Option<seq<byte>>)
      requires |j.subtree| == 32 && Deliverable(x)
      modifies `nacks
      ensures r == Yield(x)
      ensures nacks == old(nacks) + Question(to, x, NackBytes(AskFor(j)))
    {
      if !x.ready {
        return None;
      }
      var nack := BuildNack(AskFor(j));
      if !x.sent {
        return None;
      }
      nacks := nacks + [(to, nack[..])];
      var buf := new byte[BUFFER];
      var i := 0;
      while i < |x.arrivals|
        invariant 0 <= i <= |x.arrivals|
        invariant Fetched(x.arrivals) == Fetched(x.arrivals[i..])
        modifies buf
      {
        // the bytes after the datagram are left from earlier, longer ones
        var d := x.arrivals[i];
        var n := |d|;
        Fill(buf, 0, d);
        assert buf[..n] == d;
        assert x.arrivals[i..][1..] == x.arrivals[i + 1..];
        if n >= HEADER_SIZE && buf[..4] == MAGIC && buf[6] != MSG_ACK && buf[6] != MSG_MISS {
          assert buf[..4] == d[..4];
          return Some(buf[..n]);
        }
        if n == RESPONSE_SIZE && buf[6] == MSG_MISS {
          return None;
        }
        assert n >= 4 ==> buf[..4] == d[..4];
        i := i + 1;
      }
      return None;
    }

    ghost function Footprint(): set<object>
    {
      {this, cache.backend} + retrans.Footprint() + if dedup == null then {} else {dedup.backend}
    }

    ghost function Current(): Wiring
    {
      Wiring(retrans.As(), ttls, multicast, unicast, dedup != null, window,
            retrans.dedup != null && retrans.dedup.backend == cache.backend,
            dedup != null && dedup.backend == cache.backend,
            dedup != null && retrans.dedup != null && dedup.backend == retrans.dedup.backend)
    }

    ghost function Holds(): Stores
      reads Footprint()
    {
      Stores(cache.backend.entries, retrans.Claims(), if dedup == null then map[] else dedup.backend.entries)
    }

    /** Keep a recovered frame under its own flow key, with the time of its version. */
    method Keep(raw: seq<byte>, w: Trip) returns (err: bool)
      requires Valid() && Ingress.SelfKeyed(cache.backend.entries) && IsFrame(raw)
      modifies cache.backend
      ensures Ingress.SelfKeyed(cache.backend.entries)
      ensures err <==> w.store != Works
      ensures Holds() == Kept(Current(), raw, w, old(Holds()))
    {
      assert raw[40..48] + raw[48..56] == KeyBytes(raw);
      Ingress.FrameWriteSelfKeyed(cache.backend.entries, raw, w.storeAt + ttls.For(raw[6]));
      err := cache.Put(raw[40..48] + raw[48..56], raw, ttls.For(raw[6]), w.storeAt, w.store);
    }

    /** Claim the recovery; an error in asking does not stop it. */
    method TakeClaim(j: Job, w: Trip) returns (go: bool)
      requires Valid() && Ingress.SelfKeyed(cache.backend.entries)
      modifies if dedup == null then {} else {dedup.backend}
      ensures Ingress.SelfKeyed(cache.backend.entries)
      ensures go == GoesOn(Current(), j, w, old(Holds()))
      ensures Holds() == Claimed(Current(), j, w, old(Holds()))
    {
      go := true;
      if dedup != null {
        Ingress.OtherSpaceSameFrames(dedup.backend.entries, Space.Proxy, FlightOp(Current(), j), w.claimAt, w.claim);
        var won, err := dedup.SetIfAbsent(ClaimKey(j, unicast), CLAIMED, window, w.claimAt, w.claim);
        go := err || won;
      }
    }

    /** Multicast a recovered frame; what the claim does cannot touch the cached frames. */
    method Reinject(raw: seq<byte>, w: Trip) returns (o: Retransmit.Outcome)
      requires Valid() && Ingress.SelfKeyed(cache.backend.entries) && IsFrame(raw) && |w.writes| == |w.order|
      modifies retrans.Footprint()
      ensures Ingress.SelfKeyed(cache.backend.entries)
      ensures retrans.unicasts == old(retrans.unicasts)
      ensures Holds() == Reclaimed(Current(), raw, w, old(Holds()))
      ensures retrans.wire == old(retrans.wire) +
              retrans.As().Puts(old(retrans.Claims()), raw, Retransmit.TxIDOf(raw), w.sendAt, w.send, w.order, w.writes)
      ensures o == Retransmit.Sent <==>
                && retrans.As().Wins(old(retrans.Claims()), raw, w.sendAt, w.send)
                && retrans.As().Clean(raw, Retransmit.TxIDOf(raw), w.writes)
    {
      Ingress.OtherSpaceSameFrames(retrans.Claims(), Space.Dedup, SetNX(KeyBytes(raw), CLAIMED, retrans.window),
                                   w.sendAt, w.send);
      o := retrans.Send(raw, raw[8..40], w.sendAt, w.send, w.order, w.writes);
    }

    /** Keep a recovered frame, then deliver it the way the modes say. */
    method Deliver(raw: seq<byte>, j: Job, w: Trip)
      requires Valid() && Ingress.SelfKeyed(cache.backend.entries) && IsFrame(raw) && |w.writes| == |w.order|
      modifies {cache.backend} + retrans.Footprint()
      ensures Ingress.SelfKeyed(cache.backend.entries)
      ensures Holds() == Delivered(Current(), raw, w, old(Holds()))
      ensures retrans.wire == old(retrans.wire) + Reinjected(Current(), raw, w, old(Holds()))
      ensures retrans.unicasts == old(retrans.unicasts) +
              if unicast && j.requester.Some? && w.unicastOk then [(raw, j.requester.value)] else []
    {
      var err := Keep(raw, w);
      if multicast {
        var o := Reinject(raw, w);
      }
      ghost var held := Holds();
      if unicast && j.requester.Some? {
        var sent := retrans.SendTo(raw, j.requester.value, w.unicastOk);
      }
      assert Holds() == held;
    }

    /** Ask the upstreams in turn until one returns a frame or the recovery is cancelled. */
    method AskAround(j: Job, w: Trip) returns (stopped: bool, got: Option<seq<byte>>)
      requires Valid() && |j.subtree| == 32 && |w.tries| == maxEndpoints
      requires forall x :: x in w.tries ==> Deliverable(x)
      modifies `nacks
      ensures nacks == old(nacks) + Inquiry(upstreams, w.tries, w.stopAt, NackBytes(AskFor(j)))
      ensures got == Found(w.tries, w.stopAt)
      ensures got.None? ==> (stopped <==> w.stopAt < maxEndpoints)
    {
      ghost var body := NackBytes(AskFor(j));
      var i := 0;
      while i < maxEndpoints
        invariant 0 <= i <= maxEndpoints && i <= w.stopAt
        invariant nacks == old(nacks) + Questions(upstreams, w.tries, i, body)
        invariant Turns(w.tries, w.stopAt, 0) == Turns(w.tries, w.stopAt, i)
        invariant i > 0 ==> Yield(w.tries[i - 1]).None?
      {
        if i == w.stopAt {
          return true, None;
        }
        got := Fetch(upstreams[i], j, w.tries[i]);
        if got.Some? {
          return false, got;
        }
        i := i + 1;
      }
      return false, None;
    }

    /** Ask around, then keep and deliver what comes back. */
    method Seek(j: Job, w: Trip) returns (r: Result)
      requires Valid() && Ingress.SelfKeyed(cache.backend.entries) && |j.subtree| == 32
      requires |w.writes| == |w.order| && |w.tries| == maxEndpoints
      requires forall x :: x in w.tries ==> Deliverable(x)
      modifies Footprint()
      ensures Ingress.SelfKeyed(cache.backend.entries) && queue == old(queue)
      ensures r == Sought(w)
      ensures nacks == old(nacks) + Inquiry(upstreams, w.tries, w.stopAt, NackBytes(AskFor(j)))
      ensures Holds() == if r.Got? then Delivered(Current(), r.raw, w, old(Holds())) else old(Holds())
      ensures retrans.wire == old(retrans.wire) + if r.Got? then Reinjected(Current(), r.raw, w, old(Holds())) else []
      ensures retrans.unicasts == old(retrans.unicasts) +
              if r.Got? && unicast && j.requester.Some? && w.unicastOk then [(r.raw, j.requester.value)] else []
    {
      var stopped, got := AskAround(j, w);
      assert Holds() == old(Holds());
      if got.None? {
        return if stopped then Stopped else Exhausted;
      }
      Deliver(got.value, j, w);
      return Got(got.value);
    }

    /**
     Claim the gap, ask the upstreams in turn until one returns a frame, then keep and
     deliver it; a job is skipped only on a claim that is answered and lost.
     */
    method Recover(j: Job, w: Trip) returns (r: Result)
      requires Valid() && Ingress.SelfKeyed(cache.backend.entries) && |j.subtree| == 32
      requires |w.writes| == |w.order| && |w.tries| == maxEndpoints
      requires forall x :: x in w.tries ==> Deliverable(x)
      modifies Footprint()
      ensures Ingress.SelfKeyed(cache.backend.entries) && queue == old(queue)
      ensures r == ResultOf(Current(), j, w, old(Holds()))
      ensures nacks == old(nacks) +
              if r == Skipped then [] else Inquiry(upstreams, w.tries, w.stopAt, NackBytes(AskFor(j)))
      ensures var claimed := Claimed(Current(), j, w, old(Holds()));
              && Holds() == (if r.Got? then Delivered(Current(), r.raw, w, claimed) else claimed)
              && retrans.wire == old(retrans.wire) +
                   (if r.Got? then Reinjected(Current(), r.raw, w, claimed) else [])
              && retrans.unicasts == old(retrans.unicasts) +
                   if r.Got? && unicast && j.requester.Some? && w.unicastOk then [(r.raw, j.requester.value)] else []
    {
      var go := TakeClaim(j, w);
      if !go {
        return Skipped;
      }
      r := Seek(j, w);
    }
  }
}
