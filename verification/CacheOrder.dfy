/**
 What one socket's pipeline leaves in the cache: through every interleaving of its
 processors, the last datagram of a flow key is the one that stays.
 */
module CacheOrder {
  import opened Bytes
  import opened TtlStore
  import opened Frames
  import opened Pipeline
  import opened PipelineRuns
  import Ingress
  import Keeping
  import Shard

  /** A frame ingress keeps, its flow key and its time. */
  datatype Kept = Kept(key: seq<byte>, frame: seq<byte>, ttl: int)

  /** What ingress keeps of a datagram, if anything. */
  function KeptOf(codec: Codec, ttls: Ttls, tee: bool, d: Datagram): Option<Kept>
  {
    var f := Shard.Frame(d.bytes, tee);
    if Framed(f) && Ingress.StoreTtl(codec, ttls, f).Some?
    then Some(Kept(KeyBytes(f), f, Ingress.StoreTtl(codec, ttls, f).value)) else None
  }

  /** A stamped frame that its class's decoder accepts is kept, under its own bytes and for its class's time. */
  lemma StampedIsKept(codec: Codec, ttls: Ttls, tee: bool, d: Datagram, f: seq<byte>, kind: Kind, h: Header, ttl: int)
    requires Faithful(codec) && Shard.Carries(d.bytes, tee, f) && |f| >= 56 && Keeping.Named(f[6], kind)
    requires codec.decode(kind, f) == Some(h) && U64(f[48..56]) != 0
    requires Keeping.LastsFor(ttls, if f[6] == 0x03 then h.origVer else f[6], ttl)
    ensures KeptOf(codec, ttls, tee, d) == Some(Kept(f[40..56], f, ttl))
  {
    Shard.CarriedFrame(d.bytes, tee, f);
    Keeping.TimeOfClass(codec, ttls, f, kind, h, ttl);
  }

  /** What one socket's ingress keeps, and what handling a datagram does to the cache. */
  datatype Keeper = Keeper(kept: Datagram -> Option<Kept>, store: (Entries, Datagram, int) -> Entries)

  /** The keeper is ingress as `Ingress.Worker.Handle` does it, over a link that works. */
  ghost predicate IsIngress(w: Keeper, codec: Codec, ttls: Ttls, tee: bool)
  {
    && (forall d :: w.kept(d) == KeptOf(codec, ttls, tee, d))
    && (forall m, d, now :: w.store(m, d, now) == Ingress.Stored(codec, ttls, tee, m, d.bytes, now, Works))
  }

  function IngressOf(codec: Codec, ttls: Ttls, tee: bool): (w: Keeper)
    ensures IsIngress(w, codec, ttls, tee)
  {
    Keeper(d => KeptOf(codec, ttls, tee, d),
           (m: Entries, d: Datagram, now: int) => Ingress.Stored(codec, ttls, tee, m, d.bytes, now, Works))
  }

  predicate KeepsAs(w: Keeper, d: Datagram, k: seq<byte>)
  {
    w.kept(d).Some? && w.kept(d).value.key == k
  }

  /** The cache after a step: a `Handle` stores what ingress keeps, nothing else touches it. */
  ghost function After(c: Config, w: Keeper, s: State, t: Step, m: Entries, now: int): Entries
    requires Moves(c, s, t)
  {
    if t.Handle? then w.store(m, s.mem[s.hands[t.p].m.slot], now) else m
  }

  /** One step of the pipeline and the time at which it is taken. */
  datatype Tick = Tick(step: Step, now: int)

  /** A run of the pipeline together with the cache it writes. */
  ghost predicate StoreRun(c: Config, w: Keeper, s: State, m: Entries, ticks: seq<Tick>, n: State, m': Entries)
    decreases |ticks|
  {
    if ticks == [] then s == n && m == m'
    else
      && Moves(c, s, ticks[0].step)
      && StoreRun(c, w, Do(c, s, ticks[0].step), After(c, w, s, ticks[0].step, m, ticks[0].now), ticks[1..], n, m')
  }

  function EntryAt(m: Entries, k: seq<byte>): Option<Entry>
  {
    if TtlStore.Full(Space.Frames, k) in m then Some(m[TtlStore.Full(Space.Frames, k)]) else None
  }

  /** What is left of a datagram that is kept, when it is stored at `at`. */
  function EntryOf(w: Keeper, d: Datagram, at: int): Option<Entry>
  {
    if w.kept(d).None? then None else Some(Entry(w.kept(d).value.frame, at + w.kept(d).value.ttl))
  }

  // ── the latest arrival that has been handled ──────────────────────────────

  /** An arrival that was handled, and when. */
  datatype Last = Last(id: nat, at: int)

  ghost predicate HandledBy(done: seq<seq<Delivery>>, q: nat, j: nat, id: nat)
  {
    q < |done| && j < |done[q]| && done[q][j].id == id
  }

  /** Arrival `id` was handled, and ingress keeps it under `k`. */
  ghost predicate HandledFor(w: Keeper, s: State, k: seq<byte>, id: nat)
  {
    id < |s.arrivals| && KeepsAs(w, s.arrivals[id], k) && exists q, j :: HandledBy(s.done, q, j, id)
  }

  /** Nothing handled for `k` so far arrived after `last`. */
  ghost predicate NoneNewer(w: Keeper, done: seq<seq<Delivery>>, k: seq<byte>, last: Option<Last>)
  {
    forall q, j :: 0 <= q < |done| && 0 <= j < |done[q]| && KeepsAs(w, done[q][j].data, k) ==>
      last.Some? && done[q][j].id <= last.value.id
  }

  /** The latest arrival for `k` that has been handled, and the entry it left. */
  ghost predicate Latest(w: Keeper, s: State, k: seq<byte>, first: Entries, m: Entries, last: Option<Last>)
  {
    && NoneNewer(w, s.done, k, last)
    && (last.None? ==> EntryAt(m, k) == EntryAt(first, k))
    && (last.Some? ==>
          && HandledFor(w, s, k, last.value.id)
          && EntryAt(m, k) == EntryOf(w, s.arrivals[last.value.id], last.value.at))
  }

  // ── one key, one lane, one entry ──────────────────────────────────────────

  /** What is kept under `k` goes to one processor, and storing it is what changes the entry under `k`. */
  ghost predicate Sound(c: Config, w: Keeper, k: seq<byte>)
  {
    && (forall a, b :: KeepsAs(w, a, k) && KeepsAs(w, b, k) ==> Route(c, a) == Route(c, b))
    && (forall m, d, now :: EntryAt(w.store(m, d, now), k) ==
                            if KeepsAs(w, d, k) then EntryOf(w, d, now) else EntryAt(m, k))
  }

  lemma PutEntry(m: Entries, x: Kept, now: int, k: seq<byte>)
    ensures EntryAt(Effect(m, Within(Space.Frames, Set(x.key, x.frame, x.ttl)), now, Works), k) ==
            if x.key == k then Some(Entry(x.frame, now + x.ttl)) else EntryAt(m, k)
  {
    if TtlStore.Full(Space.Frames, x.key) == TtlStore.Full(Space.Frames, k) {
      FullInjective(Space.Frames, x.key, Space.Frames, k);
    }
  }

  lemma StoredEntry(codec: Codec, ttls: Ttls, tee: bool, m: Entries, d: Datagram, now: int, k: seq<byte>)
    ensures var x := KeptOf(codec, ttls, tee, d);
            EntryAt(Ingress.Stored(codec, ttls, tee, m, d.bytes, now, Works), k) ==
            if x.Some? && x.value.key == k then Some(Entry(x.value.frame, now + x.value.ttl)) else EntryAt(m, k)
  {
    var x := KeptOf(codec, ttls, tee, d);
    if x.Some? { PutEntry(m, x.value, now, k); }
  }

  lemma KeptRoute(c: Config, codec: Codec, ttls: Ttls, a: Datagram, b: Datagram)
    requires Proper(c) && KeptOf(codec, ttls, c.tee, a).Some? && KeptOf(codec, ttls, c.tee, b).Some?
    requires KeptOf(codec, ttls, c.tee, a).value.key == KeptOf(codec, ttls, c.tee, b).value.key
    ensures Route(c, a) == Route(c, b)
  {
    SameKeySameRoute(c, a, b);
  }

  lemma IngressIsSound(c: Config, w: Keeper, codec: Codec, ttls: Ttls, k: seq<byte>)
    requires Proper(c) && IsIngress(w, codec, ttls, c.tee)
    ensures Sound(c, w, k)
  {
    forall a, b | KeepsAs(w, a, k) && KeepsAs(w, b, k) ensures Route(c, a) == Route(c, b) {
      KeptRoute(c, codec, ttls, a, b);
    }
    forall m, d, now
      ensures EntryAt(w.store(m, d, now), k) == if KeepsAs(w, d, k) then EntryOf(w, d, now) else EntryAt(m, k)
    {
      StoredEntry(codec, ttls, c.tee, m, d, now, k);
    }
  }

  /** In the lane of one key, what was handled last arrived last. */
  lemma NewestInLane(c: Config, s: State, p: nat, q: nat, j: nat)
    requires Inv(c, s) && p < c.procs && s.done[p] != [] && q < c.procs && j < |s.done[q]|
    requires Route(c, s.done[p][|s.done[p]| - 1].data) == Route(c, s.done[q][j].data)
    ensures s.done[q][j].id <= s.done[p][|s.done[p]| - 1].id
  {
    HandledInOrder(c, s, p);
    HandledInOrder(c, s, q);
    assert p == q;
  }

  lemma OtherStepLatest(c: Config, w: Keeper, s: State, t: Step, k: seq<byte>, first: Entries, m: Entries,
                        last: Option<Last>)
    requires Moves(c, s, t) && !t.Handle? && Latest(w, s, k, first, m, last)
    ensures Latest(w, Do(c, s, t), k, first, m, last)
  {
    var n := Do(c, s, t);
    assert n.done == s.done && s.arrivals <= n.arrivals;
  }

  lemma HandledForOn(w: Keeper, s: State, n: State, k: seq<byte>, id: nat, p: nat, e: Delivery)
    requires HandledFor(w, s, k, id) && p < |s.done|
    requires n.arrivals == s.arrivals && n.done == s.done[p := s.done[p] + [e]]
    ensures HandledFor(w, n, k, id)
  {
    var q, j :| HandledBy(s.done, q, j, id);
    assert HandledBy(n.done, q, j, id);
  }

  /** A datagram that is kept under `k` is the newest of that key when it is handled. */
  lemma HandleNewest(c: Config, w: Keeper, n: State, k: seq<byte>, p: nat, at: int)
    requires Sound(c, w, k) && Inv(c, n) && p < c.procs && n.done[p] != []
    requires KeepsAs(w, n.done[p][|n.done[p]| - 1].data, k)
    ensures NoneNewer(w, n.done, k, Some(Last(n.done[p][|n.done[p]| - 1].id, at)))
  {
    forall q, j | 0 <= q < |n.done| && 0 <= j < |n.done[q]| && KeepsAs(w, n.done[q][j].data, k)
      ensures n.done[q][j].id <= n.done[p][|n.done[p]| - 1].id
    {
      NewestInLane(c, n, p, q, j);
    }
  }

  /** One that is not leaves the newest as it was. */
  lemma HandleOther(w: Keeper, done: seq<seq<Delivery>>, p: nat, e: Delivery, k: seq<byte>, last: Option<Last>)
    requires NoneNewer(w, done, k, last) && p < |done| && !KeepsAs(w, e.data, k)
    ensures NoneNewer(w, done[p := done[p] + [e]], k, last)
  {
    var done': seq<seq<Delivery>> := done[p := done[p] + [e]];
    forall q, j | 0 <= q < |done'| && 0 <= j < |done'[q]| && KeepsAs(w, done'[q][j].data, k)
      ensures last.Some? && done'[q][j].id <= last.value.id
    {
      assert done'[q][j] == done[q][j];
    }
  }

  /** What is handled is what was read, by the processor of its route. */
  lemma HandledAsArrived(c: Config, s: State, p: nat)
    requires Inv(c, s) && Moves(c, s, Handle(p))
    ensures var n, e := Do(c, s, Handle(p)), Delivery(s.hands[p].m.id, s.mem[s.hands[p].m.slot]);
            && Inv(c, n) && n.arrivals == s.arrivals && n.done == s.done[p := s.done[p] + [e]]
            && e.id < |s.arrivals| && e.data == s.arrivals[e.id]
  {
    StepInv(c, s, Handle(p));
    var n := Do(c, s, Handle(p));
    HandledInOrder(c, n, p);
    assert n.done[p][|s.done[p]|] == Delivery(s.hands[p].m.id, s.mem[s.hands[p].m.slot]);
  }

  lemma OtherLatest(w: Keeper, s: State, n: State, p: nat, e: Delivery, k: seq<byte>, first: Entries, m: Entries,
                    m': Entries, last: Option<Last>)
    requires Latest(w, s, k, first, m, last) && p < |s.done| && !KeepsAs(w, e.data, k)
    requires n.arrivals == s.arrivals && n.done == s.done[p := s.done[p] + [e]] && EntryAt(m', k) == EntryAt(m, k)
    ensures Latest(w, n, k, first, m', last)
  {
    HandleOther(w, s.done, p, e, k, last);
    if last.Some? { HandledForOn(w, s, n, k, last.value.id, p, e); }
  }

  lemma KeptLatest(w: Keeper, n: State, p: nat, e: Delivery, k: seq<byte>, first: Entries, m: Entries, at: int)
    requires p < |n.done| && n.done[p] != [] && n.done[p][|n.done[p]| - 1] == e && KeepsAs(w, e.data, k)
    requires NoneNewer(w, n.done, k, Some(Last(e.id, at))) && EntryAt(m, k) == EntryOf(w, e.data, at)
    requires e.id < |n.arrivals| && n.arrivals[e.id] == e.data
    ensures Latest(w, n, k, first, m, Some(Last(e.id, at)))
  {
    assert HandledBy(n.done, p, |n.done[p]| - 1, e.id);
  }

  lemma HandleLatest(c: Config, w: Keeper, s: State, p: nat, now: int, k: seq<byte>, first: Entries, m: Entries,
                     last: Option<Last>) returns (newest: Option<Last>)
    requires Sound(c, w, k) && Inv(c, s) && Moves(c, s, Handle(p)) && Latest(w, s, k, first, m, last)
    ensures Latest(w, Do(c, s, Handle(p)), k, first, After(c, w, s, Handle(p), m, now), newest)
    ensures newest == last || (newest.Some? && newest.value.at == now)
  {
    var n, e := Do(c, s, Handle(p)), Delivery(s.hands[p].m.id, s.mem[s.hands[p].m.slot]);
    HandledAsArrived(c, s, p);
    var m' := w.store(m, e.data, now);
    if KeepsAs(w, e.data, k) {
      newest := Some(Last(e.id, now));
      HandleNewest(c, w, n, k, p, now);
      KeptLatest(w, n, p, e, k, first, m', now);
    } else {
      newest := last;
      OtherLatest(w, s, n, p, e, k, first, m, m', last);
    }
  }

  /** The store was made by a `Handle` of the run. */
  ghost predicate Made(ticks: seq<Tick>, at: int)
  {
    exists t :: t in ticks && t.step.Handle? && t.now == at
  }

  lemma {:induction false} RunLatest(c: Config, w: Keeper, s: State, m: Entries, ticks: seq<Tick>, n: State,
                                     m': Entries, k: seq<byte>, first: Entries, last: Option<Last>)
    returns (newest: Option<Last>)
    requires Sound(c, w, k) && Inv(c, s) && StoreRun(c, w, s, m, ticks, n, m')
    requires Latest(w, s, k, first, m, last)
    ensures Inv(c, n) && Latest(w, n, k, first, m', newest)
    ensures newest == last || (newest.Some? && Made(ticks, newest.value.at))
    decreases |ticks|
  {
    newest := last;
    if ticks != [] {
      var t := ticks[0].step;
      var next := last;
      StepInv(c, s, t);
      if t.Handle? {
        next := HandleLatest(c, w, s, t.p, ticks[0].now, k, first, m, last);
        assert next != last ==> Made(ticks, next.value.at);
      } else {
        OtherStepLatest(c, w, s, t, k, first, m, last);
      }
      newest := RunLatest(c, w, Do(c, s, t), After(c, w, s, t, m, ticks[0].now), ticks[1..], n, m', k, first, next);
    }
  }

  // ── when receive has returned ─────────────────────────────────────────────

  /** Arrival `id` was sent on to a processor, and ingress keeps it under `k`. */
  ghost predicate SentFor(w: Keeper, s: State, k: seq<byte>, id: nat)
  {
    id < |s.arrivals| && id < |s.fates| && s.fates[id] == Sent && KeepsAs(w, s.arrivals[id], k)
  }

  lemma HandledIsSent(c: Config, w: Keeper, s: State, k: seq<byte>, id: nat)
    requires Inv(c, s) && HandledFor(w, s, k, id)
    ensures SentFor(w, s, k, id)
  {
    var q, j :| HandledBy(s.done, q, j, id);
    HandledInOrder(c, s, q);
  }

  lemma SentIsNotNewer(c: Config, w: Keeper, s: State, k: seq<byte>, id: nat, last: Option<Last>)
    requires Inv(c, s) && s.rx.Done? && SentFor(w, s, k, id) && NoneNewer(w, s.done, k, last)
    ensures last.Some? && id <= last.value.id
  {
    SentIsHandledOnce(c, s, id);
    var p := Route(c, s.arrivals[id]);
    var i :| 0 <= i < |s.done[p]| && s.done[p][i] == Delivery(id, s.arrivals[id]);
    assert KeepsAs(w, s.done[p][i].data, k);
  }

  /** Arrival `id` is the last that was sent on and is kept under `k`. */
  ghost predicate LastFor(w: Keeper, s: State, k: seq<byte>, id: nat)
  {
    SentFor(w, s, k, id) && forall j :: id < j < |s.arrivals| ==> !SentFor(w, s, k, j)
  }

  lemma LatestIsLast(c: Config, w: Keeper, first: Entries, ticks: seq<Tick>, s: State, m: Entries, k: seq<byte>,
                     last: Option<Last>)
    requires Inv(c, s) && s.rx.Done? && Latest(w, s, k, first, m, last) && (last.Some? ==> Made(ticks, last.value.at))
    ensures forall id: nat :: LastFor(w, s, k, id) ==>
              exists at :: Made(ticks, at) && EntryAt(m, k) == EntryOf(w, s.arrivals[id], at)
    ensures (forall id: nat :: !SentFor(w, s, k, id)) ==> EntryAt(m, k) == EntryAt(first, k)
  {
    if last.Some? { HandledIsSent(c, w, s, k, last.value.id); }
    forall id: nat | LastFor(w, s, k, id)
      ensures exists at :: Made(ticks, at) && EntryAt(m, k) == EntryOf(w, s.arrivals[id], at)
    {
      SentIsNotNewer(c, w, s, k, id, last);
      assert last.value.id == id;
    }
  }

  /**
   When `receive` has returned, the cache has under each flow key the last datagram of
   that key that was read, sent on and kept, from the time it was handled, whatever the
   interleaving of the processors; where there was none it has what it had before.
   */
  lemma LastSentIsCached(c: Config, codec: Codec, ttls: Ttls, w: Keeper, first: Entries, ticks: seq<Tick>, s: State,
                         m: Entries, k: seq<byte>)
    requires Proper(c) && IsIngress(w, codec, ttls, c.tee)
    requires StoreRun(c, w, Init(c), first, ticks, s, m) && s.rx.Done?
    ensures forall id: nat :: LastFor(w, s, k, id) ==>
              exists at :: Made(ticks, at) && EntryAt(m, k) == EntryOf(w, s.arrivals[id], at)
    ensures (forall id: nat :: !SentFor(w, s, k, id)) ==> EntryAt(m, k) == EntryAt(first, k)
  {
    IngressIsSound(c, w, codec, ttls, k);
    InitInv(c);
    var last := RunLatest(c, w, Init(c), first, ticks, s, m, k, first, None);
    LatestIsLast(c, w, first, ticks, s, m, k, last);
  }
}
