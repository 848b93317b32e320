/**
 What the pipeline does with the datagrams: every run keeps bytes intact, keeps each
 queue's datagrams in arrival order, and decides each datagram exactly once.
 */
module PipelineOrder {
  import opened Slots
  import opened Pipeline

  // ── bytes stay as they were read ──────────────────────────────────────────

  /** What is read so far, what the slots contain, and how many datagrams are decided. */
  datatype View = View(mem: seq<Datagram>, arrivals: seq<Datagram>, decided: nat)

  ghost function ViewOf(s: State): View
  {
    View(s.mem, s.arrivals, |s.fates|)
  }

  /** The slot of a queued or held datagram still contains what was read for it. */
  ghost predicate Holds(v: View, m: Msg)
  {
    m.id < v.decided <= |v.arrivals| && m.slot < |v.mem| && v.mem[m.slot] == v.arrivals[m.id]
  }

  /** A handled datagram was handled with the bytes that were read. */
  ghost predicate HandledAsRead(v: View, d: Delivery)
  {
    d.id < v.decided <= |v.arrivals| && d.data == v.arrivals[d.id]
  }

  /** One processor's lane: what it handled, what it has in hand, what waits in its queue. */
  ghost predicate LaneIntact(v: View, q: seq<Msg>, h: Hand, done: seq<Delivery>)
  {
    && (forall j :: 0 <= j < |q| ==> Holds(v, q[j]))
    && (h.Holding? ==> Holds(v, h.m))
    && (forall k :: 0 <= k < |done| ==> HandledAsRead(v, done[k]))
  }

  /** The batch entries from..n still contain the datagrams not yet decided. */
  ghost predicate Pending(v: View, batch: seq<nat>, from: nat, n: nat)
  {
    && v.decided + n - from <= |v.arrivals| && n <= |batch|
    && forall j :: from <= j < n ==> batch[j] < |v.mem| && v.mem[batch[j]] == v.arrivals[v.decided + j - from]
  }

  /** The first batch entry not yet decided. */
  ghost function NextEntry(rx: Rx): nat
    requires rx.Dispatch? || rx.Wait? || rx.Refill?
  {
    if rx.Refill? then rx.i + 1 else rx.i
  }

  ghost predicate LanesIntact(c: Config, s: State)
    requires Shape(c, s)
  {
    forall p :: 0 <= p < c.procs ==> LaneIntact(ViewOf(s), s.queues[p], s.hands[p], s.done[p])
  }

  ghost predicate Intact(c: Config, s: State)
    requires Shape(c, s)
  {
    LanesIntact(c, s) && PendingOk(s)
  }

  lemma {:induction false} WrittenAt(mem: seq<Datagram>, batch: seq<nat>, ds: seq<Datagram>)
    requires |ds| <= |batch| && forall j :: 0 <= j < |batch| ==> batch[j] < |mem|
    requires forall j, k :: 0 <= j < k < |batch| ==> batch[j] != batch[k]
    ensures forall j :: 0 <= j < |ds| ==> Written(mem, batch, ds)[batch[j]] == ds[j]
    ensures forall x :: 0 <= x < |mem| && x !in batch ==> Written(mem, batch, ds)[x] == mem[x]
    decreases |ds|
  {
    if ds != [] { WrittenAt(mem, batch, ds[..|ds| - 1]); }
  }

  /** Nothing in a lane depends on batch slots, later arrivals or later decisions. */
  lemma LaneLater(v: View, w: View, batch: seq<nat>, q: seq<Msg>, h: Hand, done: seq<Delivery>)
    requires LaneIntact(v, q, h, done)
    requires v.arrivals <= w.arrivals && v.decided <= w.decided <= |w.arrivals| && |v.mem| == |w.mem|
    requires forall x :: 0 <= x < |v.mem| && x !in batch ==> w.mem[x] == v.mem[x]
    requires forall j :: 0 <= j < |q| ==> q[j].slot !in batch
    requires h.Holding? ==> h.m.slot !in batch
    ensures LaneIntact(w, q, h, done)
  {
  }

  /** No batch slot is queued or held, or twice in the batch. */
  ghost predicate BatchApart(c: Config, s: State)
    requires Shape(c, s)
  {
    && (forall j, k :: 0 <= j < k < |s.batch| ==> s.batch[j] != s.batch[k])
    && (forall p :: 0 <= p < c.procs ==> LaneApart(s.batch, s.queues[p], s.hands[p]))
  }

  ghost predicate LaneApart(batch: seq<nat>, q: seq<Msg>, h: Hand)
  {
    && (forall j :: 0 <= j < |q| ==> q[j].slot !in batch)
    && (h.Holding? ==> h.m.slot !in batch)
  }

  lemma PartitionedApart(c: Config, s: State)
    requires Shape(c, s) && Partitioned(c, s) && !s.rx.Refill?
    ensures BatchApart(c, s)
  {
    forall j | 0 <= j < |s.batch|
      ensures forall k :: 0 <= k < |s.batch| && k != j ==> s.batch[k] != s.batch[j]
      ensures forall p, i :: 0 <= p < c.procs && 0 <= i < |s.queues[p]| ==> s.queues[p][i].slot != s.batch[j]
      ensures forall p :: 0 <= p < c.procs && s.hands[p].Holding? ==> s.hands[p].m.slot != s.batch[j]
    {
      HeldOnce(s.free, s.batch, s.queues, s.hands, c.total, j);
    }
  }

  lemma ReadLanesIntact(c: Config, s: State, ds: seq<Datagram>)
    requires Moves(c, s, ReadBatch(ds)) && BatchApart(c, s) && LanesIntact(c, s)
    requires Shape(c, Do(c, s, ReadBatch(ds)))
    ensures LanesIntact(c, Do(c, s, ReadBatch(ds)))
  {
    var n := Do(c, s, ReadBatch(ds));
    WrittenAt(s.mem, s.batch, ds);
    forall p | 0 <= p < c.procs ensures LaneIntact(ViewOf(n), n.queues[p], n.hands[p], n.done[p]) {
      assert LaneApart(s.batch, s.queues[p], s.hands[p]);
      LaneLater(ViewOf(s), ViewOf(n), s.batch, s.queues[p], s.hands[p], s.done[p]);
    }
  }

  lemma ReadPending(c: Config, s: State, ds: seq<Datagram>)
    requires Moves(c, s, ReadBatch(ds)) && BatchApart(c, s)
    ensures PendingOk(Do(c, s, ReadBatch(ds)))
  {
    var n := Do(c, s, ReadBatch(ds));
    WrittenAt(s.mem, s.batch, ds);
    assert n.arrivals == s.arrivals + ds && |s.fates| == |s.arrivals| && n.batch == s.batch && n.fates == s.fates;
    forall j | 0 <= j < |ds| ensures n.batch[j] < |n.mem| && n.mem[n.batch[j]] == n.arrivals[|n.fates| + j] {
      assert n.arrivals[|s.arrivals| + j] == ds[j];
    }
    assert Pending(ViewOf(n), n.batch, 0, |ds|);
  }

  /** A processor's step changes its own lane at most. */
  lemma HandLanesIntact(c: Config, s: State, t: Step)
    requires Moves(c, s, t) && LanesIntact(c, s) && ByHand(t) && Shape(c, Do(c, s, t))
    ensures LanesIntact(c, Do(c, s, t))
  {
    var n := Do(c, s, t);
    assert ViewOf(n) == ViewOf(s);
    forall p | 0 <= p < c.procs ensures LaneIntact(ViewOf(n), n.queues[p], n.hands[p], n.done[p]) {
      assert LaneIntact(ViewOf(s), s.queues[p], s.hands[p], s.done[p]);
    }
  }

  lemma PushLanesIntact(c: Config, s: State)
    requires Moves(c, s, Push) && Intact(c, s) && Shape(c, Do(c, s, Push))
    ensures LanesIntact(c, Do(c, s, Push))
  {
    var n := Do(c, s, Push);
    assert Holds(ViewOf(n), Msg(s.batch[s.rx.i], |s.fates|));
    forall p | 0 <= p < c.procs ensures LaneIntact(ViewOf(n), n.queues[p], n.hands[p], n.done[p]) {
      LaneLater(ViewOf(s), ViewOf(n), [], s.queues[p], s.hands[p], s.done[p]);
    }
  }

  /** The receiver's other steps that read nothing only add decisions. */
  lemma RxLanesIntact(c: Config, s: State, t: Step)
    requires Moves(c, s, t) && LanesIntact(c, s) && !ByHand(t) && !t.Push? && !t.ReadBatch? && Shape(c, Do(c, s, t))
    ensures LanesIntact(c, Do(c, s, t))
  {
    var n := Do(c, s, t);
    assert n.queues == s.queues && n.hands == s.hands && n.done == s.done;
    assert n.mem == s.mem && n.arrivals == s.arrivals && |s.fates| <= |n.fates|;
    forall p | 0 <= p < c.procs ensures LaneIntact(ViewOf(n), n.queues[p], n.hands[p], n.done[p]) {
      LaneLater(ViewOf(s), ViewOf(n), [], s.queues[p], s.hands[p], s.done[p]);
    }
  }

  /** Whether the receiver has batch entries yet to decide. */
  ghost predicate PendingOk(s: State)
  {
    s.rx.Dispatch? || s.rx.Wait? || s.rx.Refill? ==> Pending(ViewOf(s), s.batch, NextEntry(s.rx), s.rx.n)
  }

  /** Deciding an entry leaves the rest pending. */
  lemma PendingNext(v: View, batch: seq<nat>, i: nat, n: nat)
    requires Pending(v, batch, i, n) && i < n
    ensures Pending(v.(decided := v.decided + 1), batch, i + 1, n)
  {
  }

  lemma HandPending(c: Config, s: State, t: Step)
    requires Moves(c, s, t) && PendingOk(s) && (ByHand(t) || t.Cancel?)
    ensures PendingOk(Do(c, s, t))
  {
    var n := Do(c, s, t);
    assert n.rx == s.rx && n.batch == s.batch && ViewOf(n) == ViewOf(s);
  }

  lemma DecidePending(c: Config, s: State, t: Step)
    requires Moves(c, s, t) && PendingOk(s) && (t.Drop? || t.Push? || t.TimeOut?)
    ensures PendingOk(Do(c, s, t))
  {
    var n := Do(c, s, t);
    PendingNext(ViewOf(s), s.batch, s.rx.i, s.rx.n);
    assert n.batch == s.batch && ViewOf(n) == ViewOf(s).(decided := |s.fates| + 1);
  }

  lemma TakeFreePending(c: Config, s: State)
    requires Moves(c, s, TakeFree) && PendingOk(s)
    ensures PendingOk(Do(c, s, TakeFree))
  {
    assert ViewOf(Do(c, s, TakeFree)) == ViewOf(s);
  }

  lemma RestPending(c: Config, s: State, t: Step)
    requires Moves(c, s, t) && PendingOk(s) && !ByHand(t) && !t.Cancel? && !t.ReadBatch?
    requires !t.Drop? && !t.Push? && !t.TimeOut? && !t.TakeFree?
    ensures PendingOk(Do(c, s, t))
  {
    if t.Full? { assert ViewOf(Do(c, s, t)) == ViewOf(s); }
  }

  lemma StepPending(c: Config, s: State, t: Step)
    requires Moves(c, s, t) && PendingOk(s) && !t.ReadBatch?
    ensures PendingOk(Do(c, s, t))
  {
    if ByHand(t) || t.Cancel? {
      HandPending(c, s, t);
    } else if t.Drop? || t.Push? || t.TimeOut? {
      DecidePending(c, s, t);
    } else if t.TakeFree? {
      TakeFreePending(c, s);
    } else {
      RestPending(c, s, t);
    }
  }

  lemma StepIntact(c: Config, s: State, t: Step)
    requires Moves(c, s, t) && Partitioned(c, s) && Intact(c, s)
    ensures Shape(c, Do(c, s, t)) && Intact(c, Do(c, s, t))
  {
    StepShape(c, s, t);
    if t.ReadBatch? {
      PartitionedApart(c, s);
      ReadLanesIntact(c, s, t.ds);
      ReadPending(c, s, t.ds);
    } else {
      StepPending(c, s, t);
      if ByHand(t) {
        HandLanesIntact(c, s, t);
      } else if t.Push? {
        PushLanesIntact(c, s);
      } else {
        RxLanesIntact(c, s, t);
      }
    }
  }

  // ── each lane is what was sent to it, in arrival order ────────────────────

  function DoneIds(done: seq<Delivery>): seq<nat> { seq(|done|, i requires 0 <= i < |done| => done[i].id) }

  function QueueIds(q: seq<Msg>): seq<nat> { seq(|q|, i requires 0 <= i < |q| => q[i].id) }

  function HandIds(h: Hand): seq<nat> { if h.Holding? then [h.m.id] else [] }

  /** Handled, in hand, waiting: the arrivals of one lane in the order it serves them. */
  function Lane(done: seq<Delivery>, h: Hand, q: seq<Msg>): seq<nat>
  {
    DoneIds(done) + HandIds(h) + QueueIds(q)
  }

  /** The arrivals decided as sent to processor p, in arrival order. */
  function SentTo(c: Config, arrivals: seq<Datagram>, fates: seq<Fate>, p: nat): seq<nat>
    requires |fates| <= |arrivals|
    decreases |fates|
  {
    if fates == [] then []
    else
      var k := |fates| - 1;
      SentTo(c, arrivals, fates[..k], p) + (if fates[k] == Sent && Route(c, arrivals[k]) == p then [k] else [])
  }

  /** Nothing is lost, repeated or overtaken: each lane is exactly what was sent to it. */
  ghost predicate InOrder(c: Config, s: State)
    requires Shape(c, s)
  {
    forall p :: 0 <= p < c.procs ==>
      Lane(s.done[p], s.hands[p], s.queues[p]) == SentTo(c, s.arrivals, s.fates, p)
  }

  lemma SentSnoc(c: Config, arrivals: seq<Datagram>, fates: seq<Fate>, f: Fate, p: nat)
    requires |fates| < |arrivals|
    ensures SentTo(c, arrivals, fates + [f], p) ==
            SentTo(c, arrivals, fates, p) + (if f == Sent && Route(c, arrivals[|fates|]) == p then [|fates|] else [])
  {
  }

  lemma {:induction false} SentGrow(c: Config, arrivals: seq<Datagram>, more: seq<Datagram>, fates: seq<Fate>, p: nat)
    requires |fates| <= |arrivals|
    ensures SentTo(c, arrivals + more, fates, p) == SentTo(c, arrivals, fates, p)
    decreases |fates|
  {
    if fates != [] { SentGrow(c, arrivals, more, fates[..|fates| - 1], p); }
  }

  lemma {:induction false} SentAbandoned(c: Config, arrivals: seq<Datagram>, fates: seq<Fate>, n: nat, p: nat)
    requires |fates| + n <= |arrivals|
    ensures SentTo(c, arrivals, fates + seq(n, _ => Abandoned), p) == SentTo(c, arrivals, fates, p)
  {
    var tail := seq(n, _ => Abandoned);
    if n > 0 {
      SentAbandoned(c, arrivals, fates, n - 1, p);
      SentSnoc(c, arrivals, fates + seq(n - 1, _ => Abandoned), Abandoned, p);
      assert fates + tail == fates + seq(n - 1, _ => Abandoned) + [Abandoned];
    } else {
      assert fates + tail == fates;
    }
  }

  lemma LaneTake(done: seq<Delivery>, q: seq<Msg>)
    requires q != []
    ensures Lane(done, Holding(q[0]), q[1..]) == Lane(done, Idle, q)
  {
  }

  lemma LaneHandle(done: seq<Delivery>, m: Msg, d: Datagram, q: seq<Msg>)
    ensures Lane(done + [Delivery(m.id, d)], Finished(m), q) == Lane(done, Holding(m), q)
  {
  }

  lemma LanePush(done: seq<Delivery>, h: Hand, q: seq<Msg>, m: Msg)
    ensures Lane(done, h, q + [m]) == Lane(done, h, q) + [m.id]
  {
  }

  /** The steps that decide a datagram, or the rest of a batch. */
  predicate Decides(t: Step)
  {
    t.Drop? || t.Push? || t.TimeOut? || t.Quit?
  }

  lemma DecideSent(c: Config, s: State, t: Step, p: nat)
    requires Moves(c, s, t) && PendingOk(s) && Decides(t)
    ensures SentTo(c, Do(c, s, t).arrivals, Do(c, s, t).fates, p) ==
            SentTo(c, s.arrivals, s.fates, p) + (if t.Push? && Route(c, Current(s)) == p then [|s.fates|] else [])
  {
    match t
    case Drop => SentSnoc(c, s.arrivals, s.fates, if Current(s).trunc then Truncated else Empty, p);
    case Push => SentSnoc(c, s.arrivals, s.fates, Sent, p);
    case TimeOut => SentSnoc(c, s.arrivals, s.fates, QueueFull, p);
    case Quit => SentAbandoned(c, s.arrivals, s.fates, s.rx.n - s.rx.i, p);
  }

  lemma RestSent(c: Config, s: State, t: Step, p: nat)
    requires Moves(c, s, t) && !Decides(t)
    ensures SentTo(c, Do(c, s, t).arrivals, Do(c, s, t).fates, p) == SentTo(c, s.arrivals, s.fates, p)
  {
    if t.ReadBatch? {
      SentGrow(c, s.arrivals, t.ds, s.fates, p);
    } else {
      assert Do(c, s, t).arrivals == s.arrivals && Do(c, s, t).fates == s.fates;
    }
  }

  /** How a step changes what has been decided as sent to p. */
  lemma StepSent(c: Config, s: State, t: Step, p: nat)
    requires Moves(c, s, t) && PendingOk(s) && Shape(c, Do(c, s, t))
    ensures SentTo(c, Do(c, s, t).arrivals, Do(c, s, t).fates, p) ==
            SentTo(c, s.arrivals, s.fates, p) + (if t.Push? && Route(c, Current(s)) == p then [|s.fates|] else [])
  {
    if Decides(t) { DecideSent(c, s, t, p); } else { RestSent(c, s, t, p); }
  }

  /** How a step changes p's lane: only a push to p adds to it. */
  lemma StepLane(c: Config, s: State, t: Step, p: nat)
    requires Moves(c, s, t) && Shape(c, Do(c, s, t)) && p < c.procs
    ensures var n := Do(c, s, t);
            Lane(n.done[p], n.hands[p], n.queues[p]) ==
            Lane(s.done[p], s.hands[p], s.queues[p]) +
            (if t.Push? && Route(c, Current(s)) == p then [|s.fates|] else [])
  {
    if t.Push? && Route(c, Current(s)) == p {
      LanePush(s.done[p], s.hands[p], s.queues[p], Msg(s.batch[s.rx.i], |s.fates|));
    } else if t == Take(p) {
      LaneTake(s.done[p], s.queues[p]);
    } else if t == Handle(p) {
      LaneHandle(s.done[p], s.hands[p].m, s.mem[s.hands[p].m.slot], s.queues[p]);
    }
  }

  lemma StepInOrder(c: Config, s: State, t: Step)
    requires Moves(c, s, t) && Intact(c, s) && InOrder(c, s) && Shape(c, Do(c, s, t))
    ensures InOrder(c, Do(c, s, t))
  {
    var n := Do(c, s, t);
    forall p | 0 <= p < c.procs
      ensures Lane(n.done[p], n.hands[p], n.queues[p]) == SentTo(c, n.arrivals, n.fates, p)
    {
      StepSent(c, s, t, p);
      StepLane(c, s, t, p);
    }
  }
}
