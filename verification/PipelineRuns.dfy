/** The pipeline's guarantees over every run: no deadlock, key order, full accounting, shutdown. */
module PipelineRuns {
  import opened Shard
  import opened Slots
  import opened Pipeline
  import opened PipelineOrder

  // ── what was decided, and when a processor may be gone ────────────────────

  ghost predicate FateFits(d: Datagram, f: Fate)
  {
    && (f == Truncated ==> d.trunc)
    && (f == Empty ==> !d.trunc && d.bytes == [])
    && (f == QueueFull || f == Sent ==> !Skipped(d))
  }

  /** Every decision fits its datagram; only a shutdown abandons, and at most one batch. */
  ghost predicate Decided(arrivals: seq<Datagram>, fates: seq<Fate>, over: bool)
  {
    && |fates| <= |arrivals|
    && (forall k :: 0 <= k < |fates| ==> FateFits(arrivals[k], fates[k]))
    && (forall k :: 0 <= k < |fates| && fates[k] == Abandoned ==> over && |fates| - k <= RECV_BATCH)
  }

  lemma DecidedSnoc(arrivals: seq<Datagram>, fates: seq<Fate>, f: Fate)
    requires Decided(arrivals, fates, false) && |fates| < |arrivals| && f != Abandoned
    requires FateFits(arrivals[|fates|], f)
    ensures Decided(arrivals, fates + [f], false)
  {
  }

  lemma DecidedQuit(arrivals: seq<Datagram>, fates: seq<Fate>, n: nat)
    requires Decided(arrivals, fates, false) && |fates| + n <= |arrivals| && n <= RECV_BATCH
    ensures Decided(arrivals, fates + seq(n, _ => Abandoned), true)
  {
  }

  ghost predicate Over(s: State) { s.rx.Closing? || s.rx.Done? }

  ghost predicate Accounted(s: State)
  {
    Decided(s.arrivals, s.fates, s.cancelled && Over(s))
  }

  lemma DecideAccounted(c: Config, s: State, t: Step)
    requires Moves(c, s, t) && PendingOk(s) && Accounted(s) && ExitsOk(c, s)
    requires Decides(t)
    ensures Accounted(Do(c, s, t))
  {
    assert Current(s) == s.arrivals[|s.fates|];
    match t
    case Drop => DecidedSnoc(s.arrivals, s.fates, if Current(s).trunc then Truncated else Empty);
    case Push => DecidedSnoc(s.arrivals, s.fates, Sent);
    case TimeOut => DecidedSnoc(s.arrivals, s.fates, QueueFull);
    case Quit => DecidedQuit(s.arrivals, s.fates, s.rx.n - s.rx.i);
  }

  lemma StepAccounted(c: Config, s: State, t: Step)
    requires Moves(c, s, t) && PendingOk(s) && Accounted(s) && ExitsOk(c, s)
    ensures Accounted(Do(c, s, t))
  {
    if Decides(t) {
      DecideAccounted(c, s, t);
    } else {
      var n := Do(c, s, t);
      assert n.fates == s.fates && s.arrivals <= n.arrivals;
      assert s.cancelled && Over(s) ==> n.cancelled && Over(n);
    }
  }

  /** A processor is gone only after the queues closed and its own ran dry. */
  ghost predicate ExitsOk(c: Config, s: State)
    requires Shape(c, s)
  {
    && (forall p :: 0 <= p < c.procs && s.hands[p].Exited? ==> s.queues[p] == [] && Over(s))
    && (s.rx.Done? ==> forall p :: 0 <= p < c.procs ==> s.hands[p].Exited?)
    && (s.rx.Wait? ==> !Skipped(Current(s)))
  }

  lemma HandExitsOk(c: Config, s: State, t: Step)
    requires Moves(c, s, t) && ExitsOk(c, s) && ByHand(t) && Shape(c, Do(c, s, t))
    ensures ExitsOk(c, Do(c, s, t))
  {
    var n := Do(c, s, t);
    assert n.rx == s.rx && n.batch == s.batch && n.mem == s.mem;
  }

  lemma StepExitsOk(c: Config, s: State, t: Step)
    requires Moves(c, s, t) && ExitsOk(c, s) && Shape(c, Do(c, s, t))
    ensures ExitsOk(c, Do(c, s, t))
  {
    if ByHand(t) {
      HandExitsOk(c, s, t);
    } else {
      assert Do(c, s, t).hands == s.hands;
    }
  }

  // ── runs ──────────────────────────────────────────────────────────────────

  ghost predicate Inv(c: Config, s: State)
  {
    && ValidConfig(c) && Shape(c, s) && Partitioned(c, s)
    && Intact(c, s) && InOrder(c, s) && Accounted(s) && ExitsOk(c, s)
  }

  /** Taking `steps` one after the other leads from `s` to `n`. */
  ghost predicate Run(c: Config, s: State, steps: seq<Step>, n: State)
    decreases |steps|
  {
    if steps == [] then s == n
    else ValidConfig(c) && Shape(c, s) && Enabled(c, s, steps[0]) && Run(c, Do(c, s, steps[0]), steps[1..], n)
  }

  ghost predicate Reachable(c: Config, s: State)
  {
    Proper(c) && exists steps :: Run(c, Init(c), steps, s)
  }

  lemma InitInv(c: Config)
    requires Proper(c)
    ensures Inv(c, Init(c))
  {
    InitShape(c);
    InitPartitioned(c);
    InitIntact(c);
  }

  lemma InitIntact(c: Config)
    requires Proper(c) && Shape(c, Init(c))
    ensures Intact(c, Init(c)) && InOrder(c, Init(c)) && Accounted(Init(c)) && ExitsOk(c, Init(c))
  {
    var s := Init(c);
    assert forall p :: 0 <= p < c.procs ==> s.queues[p] == [] && s.hands[p] == Idle && s.done[p] == [];
  }

  lemma StepInv(c: Config, s: State, t: Step)
    requires Inv(c, s) && Enabled(c, s, t)
    ensures Inv(c, Do(c, s, t))
  {
    StepPartitioned(c, s, t);
    StepIntact(c, s, t);
    StepInOrder(c, s, t);
    StepAccounted(c, s, t);
    StepExitsOk(c, s, t);
  }

  lemma {:induction false} RunInv(c: Config, s: State, steps: seq<Step>, n: State)
    requires Inv(c, s) && Run(c, s, steps, n)
    ensures Inv(c, n)
    decreases |steps|
  {
    if steps != [] {
      StepInv(c, s, steps[0]);
      RunInv(c, Do(c, s, steps[0]), steps[1..], n);
    }
  }

  lemma ReachableInv(c: Config, s: State)
    requires Reachable(c, s)
    ensures Inv(c, s)
  {
    var steps :| Run(c, Init(c), steps, s);
    InitInv(c);
    RunInv(c, Init(c), steps, s);
  }

  // ── slots and blocking ────────────────────────────────────────────────────

  /** In every reachable state each slot is in exactly one place. */
  lemma EverySlotOnce(c: Config, s: State, x: nat)
    requires Reachable(c, s) && x < c.total
    ensures Shape(c, s) && Everywhere(s)[x] == 1
  {
    ReachableInv(c, s);
    AllSlotsOnce(c.total, x);
  }

  /**
   The two channel operations that could block for good never do: the receiver always
   finds a free slot, and a processor can always return its own.
   */
  lemma NeverBlocked(c: Config, s: State)
    requires Reachable(c, s)
    ensures Shape(c, s)
    ensures s.rx.Fill? ==> Enabled(c, s, FillOne)
    ensures s.rx.Refill? ==> Enabled(c, s, TakeFree)
    ensures forall p :: 0 <= p < c.procs && s.hands[p].Finished? ==> Enabled(c, s, Return(p))
  {
    ReachableInv(c, s);
    FreeListSized(c, s);
  }

  /** A step processor p can take once the queues are closed, unless it is gone. */
  ghost function HandReady(c: Config, s: State, p: nat): (t: Step)
    requires ValidConfig(c) && Shape(c, s) && FreeListOk(c, s)
    requires s.rx.Closing? && p < c.procs && !s.hands[p].Exited?
    ensures Enabled(c, s, t) && t != Cancel
  {
    match s.hands[p]
    case Idle => if s.queues[p] == [] then Exit(p) else Take(p)
    case Holding(_) => Handle(p)
    case Finished(_) => Return(p)
  }

  /** A step the program itself can take in any state in which it has not returned. */
  ghost function Ready(c: Config, s: State): (t: Step)
    requires ValidConfig(c) && Shape(c, s) && FreeListOk(c, s) && !s.rx.Done?
    ensures Enabled(c, s, t) && t != Cancel
  {
    match s.rx
    case Fill(_) => FillOne
    case Poll => Check
    case Read => ReadFails(false)
    case Dispatch(i, n) =>
      if i == n then EndBatch
      else if Skipped(Current(s)) then Drop
      else if |s.queues[Route(c, Current(s))]| < c.per then Push else Full
    case Wait(_, _) => TimeOut
    case Refill(_, _) => TakeFree
    case Closing =>
      if forall p :: 0 <= p < c.procs ==> s.hands[p].Exited? then Join
      else (var p :| 0 <= p < c.procs && !s.hands[p].Exited?; HandReady(c, s, p))
  }

  /** No reachable state is a deadlock, for any depth and any number of processors. */
  lemma NoDeadlock(c: Config, s: State)
    requires Reachable(c, s) && !s.rx.Done?
    ensures Shape(c, s) && exists t :: Enabled(c, s, t) && t != Cancel
  {
    ReachableInv(c, s);
    FreeListSized(c, s);
    var t := Ready(c, s);
  }

  // ── order and accounting ──────────────────────────────────────────────────

  lemma {:induction false} SentIncreasing(c: Config, arrivals: seq<Datagram>, fates: seq<Fate>, p: nat)
    requires |fates| <= |arrivals|
    ensures forall k :: k in SentTo(c, arrivals, fates, p) <==>
                        0 <= k < |fates| && fates[k] == Sent && Route(c, arrivals[k]) == p
    ensures forall i, j :: 0 <= i < j < |SentTo(c, arrivals, fates, p)| ==>
                             SentTo(c, arrivals, fates, p)[i] < SentTo(c, arrivals, fates, p)[j]
    decreases |fates|
  {
    if fates != [] {
      SentIncreasing(c, arrivals, fates[..|fates| - 1], p);
      var before := SentTo(c, arrivals, fates[..|fates| - 1], p);
      forall i | 0 <= i < |before| ensures before[i] < |fates| - 1 { assert before[i] in before; }
    }
  }

  /** What one processor has handled so far, seen through the lane it serves. */
  lemma HandledInOrder(c: Config, s: State, p: nat)
    requires Inv(c, s) && p < c.procs
    ensures forall i, j :: 0 <= i < j < |s.done[p]| ==> s.done[p][i].id < s.done[p][j].id
    ensures forall i :: 0 <= i < |s.done[p]| ==>
              && s.done[p][i].id < |s.fates| && s.fates[s.done[p][i].id] == Sent
              && s.done[p][i].data == s.arrivals[s.done[p][i].id] && Route(c, s.done[p][i].data) == p
  {
    SentIncreasing(c, s.arrivals, s.fates, p);
    var lane := Lane(s.done[p], s.hands[p], s.queues[p]);
    forall i | 0 <= i < |s.done[p]| ensures lane[i] == s.done[p][i].id && lane[i] in lane {}
    forall i | 0 <= i < |s.done[p]| ensures HandledAsRead(ViewOf(s), s.done[p][i]) {}
  }

  lemma SameKeySameRoute(c: Config, a: Datagram, b: Datagram)
    requires Proper(c) && KeyOf(a.bytes, c.tee) == KeyOf(b.bytes, c.tee)
    ensures Route(c, a) == Route(c, b)
  {
    SameKeySameShard(a.bytes, c.tee, b.bytes, c.tee);
  }

  /**
   In every interleaving, datagrams of one socket with the same flow key, raw or
   enveloped, are handled by one processor, in arrival order, with the bytes read.
   */
  lemma KeyOrder(c: Config, s: State, p: nat, i: nat, q: nat, j: nat)
    requires Reachable(c, s) && Shape(c, s)
    requires p < c.procs && i < |s.done[p]| && q < c.procs && j < |s.done[q]|
    requires KeyOf(s.done[p][i].data.bytes, c.tee) == KeyOf(s.done[q][j].data.bytes, c.tee)
    ensures p == q
    ensures i < j <==> s.done[p][i].id < s.done[q][j].id
    ensures s.done[p][i].id < |s.arrivals| && s.done[p][i].data == s.arrivals[s.done[p][i].id]
  {
    ReachableInv(c, s);
    HandledInOrder(c, s, p);
    HandledInOrder(c, s, q);
    SameKeySameRoute(c, s.done[p][i].data, s.done[q][j].data);
  }

  /** Arrival `k` was handled once, by processor p and with its own bytes, and nowhere else. */
  ghost predicate HandledOnce(c: Config, s: State, k: nat)
    requires ValidConfig(c) && Shape(c, s) && k < |s.arrivals|
  {
    var p := Route(c, s.arrivals[k]);
    && (exists i :: 0 <= i < |s.done[p]| && s.done[p][i] == Delivery(k, s.arrivals[k]))
    && (forall i, j :: 0 <= i < j < |s.done[p]| ==> s.done[p][i].id != k || s.done[p][j].id != k)
    && (forall q, j :: 0 <= q < c.procs && q != p && 0 <= j < |s.done[q]| ==> s.done[q][j].id != k)
  }

  lemma SentIsHandledOnce(c: Config, s: State, k: nat)
    requires Inv(c, s) && s.rx.Done? && k < |s.fates| && s.fates[k] == Sent
    ensures HandledOnce(c, s, k)
  {
    var p := Route(c, s.arrivals[k]);
    SentIncreasing(c, s.arrivals, s.fates, p);
    var lane := Lane(s.done[p], s.hands[p], s.queues[p]);
    assert k in lane && lane == DoneIds(s.done[p]);
    var i :| 0 <= i < |lane| && lane[i] == k;
    HandledInOrder(c, s, p);
    forall q, j | 0 <= q < c.procs && q != p && 0 <= j < |s.done[q]| ensures s.done[q][j].id != k {
      HandledInOrder(c, s, q);
    }
  }

  /**
   When `receive` returns, every datagram read is exactly one of: dropped as truncated,
   skipped as empty, dropped for a full queue, handled exactly once, or abandoned by the
   shutdown; and the abandoned ones are among the last batch.
   */
  lemma AllAccountedFor(c: Config, s: State, k: nat)
    requires Reachable(c, s) && s.rx.Done? && k < |s.arrivals|
    ensures Shape(c, s) && |s.fates| == |s.arrivals| && FateFits(s.arrivals[k], s.fates[k])
    ensures s.fates[k] == Sent ==> HandledOnce(c, s, k)
    ensures s.fates[k] != Sent ==> forall p, i :: 0 <= p < c.procs && 0 <= i < |s.done[p]| ==> s.done[p][i].id != k
    ensures s.fates[k] == Abandoned ==> s.cancelled && |s.arrivals| - k <= RECV_BATCH
  {
    ReachableInv(c, s);
    if s.fates[k] == Sent {
      SentIsHandledOnce(c, s, k);
    } else {
      forall p, i | 0 <= p < c.procs && 0 <= i < |s.done[p]| ensures s.done[p][i].id != k {
        HandledInOrder(c, s, p);
      }
    }
  }

  // ── shutdown ──────────────────────────────────────────────────────────────

  function QueueLoad(qs: seq<seq<Msg>>): nat
  {
    if qs == [] then 0 else |qs[0]| + QueueLoad(qs[1..])
  }

  function HandWeight(h: Hand): nat
  {
    match h
    case Holding(_) => 3
    case Finished(_) => 2
    case Idle => 1
    case Exited => 0
  }

  function HandLoad(hs: seq<Hand>): nat
  {
    if hs == [] then 0 else HandWeight(hs[0]) + HandLoad(hs[1..])
  }

  lemma {:induction false} QueueLoadUpdate(qs: seq<seq<Msg>>, p: nat, q: seq<Msg>)
    requires p < |qs|
    ensures QueueLoad(qs[p := q]) + |qs[p]| == QueueLoad(qs) + |q|
  {
    if p == 0 {
      assert qs[0 := q][1..] == qs[1..];
    } else {
      QueueLoadUpdate(qs[1..], p - 1, q);
      assert qs[p := q][1..] == qs[1..][p - 1 := q];
    }
  }

  lemma {:induction false} HandLoadUpdate(hs: seq<Hand>, p: nat, h: Hand)
    requires p < |hs|
    ensures HandLoad(hs[p := h]) + HandWeight(hs[p]) == HandLoad(hs) + HandWeight(h)
  {
    if p == 0 {
      assert hs[0 := h][1..] == hs[1..];
    } else {
      HandLoadUpdate(hs[1..], p - 1, h);
      assert hs[p := h][1..] == hs[1..][p - 1 := h];
    }
  }

  /** Receiver steps left once the context is cancelled, weighted for what they queue. */
  function RxRank(rx: Rx): int
  {
    match rx
    case Fill(k) => 10 + RECV_BATCH - k
    case Read => 10 * RECV_BATCH + 10
    case Dispatch(i, n) => 10 * (n - i) + 3
    case Wait(i, n) => 10 * (n - i) + 2
    case Refill(i, n) => 10 * (n - i - 1) + 5
    case Poll => 2
    case Closing => 1
    case Done => 0
  }

  function Rank(s: State): int
  {
    RxRank(s.rx) + 4 * QueueLoad(s.queues) + HandLoad(s.hands)
  }

  lemma RankNonneg(c: Config, s: State)
    requires Shape(c, s)
    ensures Rank(s) >= 0
  {
  }

  lemma HandRank(c: Config, s: State, t: Step)
    requires Moves(c, s, t) && ByHand(t)
    ensures Rank(Do(c, s, t)) < Rank(s)
  {
    match t
    case Take(p) =>
      QueueLoadUpdate(s.queues, p, s.queues[p][1..]);
      HandLoadUpdate(s.hands, p, Holding(s.queues[p][0]));
    case Handle(p) => HandLoadUpdate(s.hands, p, Finished(s.hands[p].m));
    case Return(p) => HandLoadUpdate(s.hands, p, Idle);
    case Exit(p) => HandLoadUpdate(s.hands, p, Exited);
  }

  lemma PushRank(c: Config, s: State)
    requires Moves(c, s, Push)
    ensures Rank(Do(c, s, Push)) < Rank(s)
  {
    var p := Route(c, Current(s));
    QueueLoadUpdate(s.queues, p, s.queues[p] + [Msg(s.batch[s.rx.i], |s.fates|)]);
  }

  lemma RxRankFalls(c: Config, s: State, t: Step)
    requires Moves(c, s, t) && s.cancelled && !ByHand(t) && !t.Push?
    ensures Rank(Do(c, s, t)) < Rank(s)
  {
    assert Do(c, s, t).queues == s.queues && Do(c, s, t).hands == s.hands;
  }

  /** After cancellation every step, whoever takes it, brings the end closer. */
  lemma StepRank(c: Config, s: State, t: Step)
    requires Moves(c, s, t) && s.cancelled
    ensures Rank(Do(c, s, t)) < Rank(s)
  {
    if ByHand(t) {
      HandRank(c, s, t);
    } else if t.Push? {
      PushRank(c, s);
    } else {
      RxRankFalls(c, s, t);
    }
  }

  /**
   Shutdown always completes: from a cancelled state no run is longer than the state's
   rank, and a run that cannot go on has returned, with every queue empty and every
   queued datagram handled.
   */
  lemma {:induction false} ShutdownCompletes(c: Config, s: State, steps: seq<Step>, n: State)
    requires Proper(c) && Inv(c, s) && s.cancelled && Run(c, s, steps, n)
    ensures Inv(c, n) && n.cancelled
    ensures |steps| <= Rank(s) - Rank(n) <= Rank(s)
    ensures (forall t :: !Enabled(c, n, t)) ==> n.rx.Done?
    ensures n.rx.Done? ==> forall p :: 0 <= p < c.procs ==> n.queues[p] == [] && n.hands[p].Exited?
    decreases |steps|
  {
    if steps == [] {
      RankNonneg(c, s);
      FreeListSized(c, s);
      if !s.rx.Done? { var t := Ready(c, s); }
    } else {
      StepRank(c, s, steps[0]);
      StepInv(c, s, steps[0]);
      ShutdownCompletes(c, Do(c, s, steps[0]), steps[1..], n);
    }
  }
}
