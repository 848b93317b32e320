/** What is read, what a full queue may drop, and what may end `receive`, over every run. */
module PipelineEnds {
  import opened Bytes
  import opened Shard
  import opened Pipeline
  import opened PipelineOrder
  import opened PipelineRuns

  // ── what ends receive ─────────────────────────────────────────────────────

  lemma StepStaysOpen(c: Config, s: State, t: Step)
    requires Moves(c, s, t) && !s.cancelled && !Over(s) && t != Cancel && t != ReadFails(true)
    ensures !Do(c, s, t).cancelled && !Over(Do(c, s, t))
  {
  }

  lemma {:induction false} RunStaysOpen(c: Config, s: State, steps: seq<Step>, n: State)
    requires Run(c, s, steps, n) && !s.cancelled && !Over(s) && Cancel !in steps && ReadFails(true) !in steps
    ensures !n.cancelled && !Over(n)
    decreases |steps|
  {
    if steps != [] {
      StepStaysOpen(c, s, steps[0]);
      RunStaysOpen(c, Do(c, s, steps[0]), steps[1..], n);
    }
  }

  /** The queues close, and `receive` returns, only once it is cancelled or its socket has failed for good. */
  lemma EndsOnlyWhenTold(c: Config, steps: seq<Step>, s: State)
    requires Run(c, Init(c), steps, s) && Over(s)
    ensures Cancel in steps || ReadFails(true) in steps
  {
    if Cancel !in steps && ReadFails(true) !in steps { RunStaysOpen(c, Init(c), steps, s); }
  }

  /** A read that times out, is interrupted or fails in passing costs nothing: the receiver reads again. */
  lemma PassingErrorReadsAgain(c: Config, s: State, ds: seq<Datagram>)
    requires ValidConfig(c) && Shape(c, s) && s.rx.Read? && !s.cancelled && 1 <= |ds| <= 64
    ensures Run(c, s, [ReadFails(false), Check], s) && Enabled(c, s, ReadBatch(ds))
  {
    var a := Do(c, s, ReadFails(false));
    StepShape(c, s, ReadFails(false));
    assert a.rx == Poll && Do(c, a, Check) == s;
    assert [ReadFails(false), Check][1..] == [Check] && [Check][1..] == [];
    assert Run(c, s, [], s);
    assert Run(c, a, [Check], s);
  }

  /** A socket that has failed for good closes the queues at once. */
  lemma FatalErrorEnds(c: Config, s: State)
    requires Moves(c, s, ReadFails(true))
    ensures Over(Do(c, s, ReadFails(true)))
  {
  }

  // ── what is read ──────────────────────────────────────────────────────────

  /** Every datagram the reads of a run returned, in order. */
  function AllRead(steps: seq<Step>): seq<Datagram>
    decreases |steps|
  {
    if steps == [] then []
    else ReadBy(steps[0]) + AllRead(steps[1..])
  }

  function ReadBy(t: Step): seq<Datagram>
  {
    if t.ReadBatch? then t.ds else []
  }

  lemma StepReads(c: Config, s: State, t: Step)
    requires Moves(c, s, t)
    ensures Do(c, s, t).arrivals == s.arrivals + ReadBy(t)
  {
  }

  lemma Regroup(a: seq<Datagram>, b: seq<Datagram>, c: seq<Datagram>)
    ensures (a + b) + c == a + (b + c)
  {
  }

  lemma {:induction false} RunReads(c: Config, s: State, steps: seq<Step>, n: State)
    requires Run(c, s, steps, n)
    ensures n.arrivals == s.arrivals + AllRead(steps)
    decreases |steps|
  {
    if steps != [] {
      StepReads(c, s, steps[0]);
      RunReads(c, Do(c, s, steps[0]), steps[1..], n);
      Regroup(s.arrivals, ReadBy(steps[0]), AllRead(steps[1..]));
    }
  }

  /** The arrivals that the other results speak of are all the datagrams the socket ever gave. */
  lemma ArrivalsAreReads(c: Config, steps: seq<Step>, s: State)
    requires Run(c, Init(c), steps, s)
    ensures s.arrivals == AllRead(steps)
  {
    RunReads(c, Init(c), steps, s);
  }

  // ── what a full queue drops ───────────────────────────────────────────────

  /** The receiver is at arrival `k`, and the queue of that arrival has no room. */
  ghost predicate AtFull(c: Config, s: State, k: nat)
  {
    && s.rx.Dispatch? && k == |s.fates| < |s.arrivals| && Route(c, s.arrivals[k]) < |s.queues|
    && |s.queues[Route(c, s.arrivals[k])]| == c.per
  }

  /** Some state on the way found the queue of arrival `k` full. */
  ghost predicate MetFull(c: Config, s: State, steps: seq<Step>, k: nat)
    decreases |steps|
  {
    steps != [] && (AtFull(c, s, k) || (Moves(c, s, steps[0]) && MetFull(c, Do(c, s, steps[0]), steps[1..], k)))
  }

  lemma {:induction false} RunFates(c: Config, s: State, steps: seq<Step>, n: State)
    requires Run(c, s, steps, n)
    ensures s.fates <= n.fates
    decreases |steps|
  {
    if steps != [] { RunFates(c, Do(c, s, steps[0]), steps[1..], n); }
  }

  ghost predicate Waiting(s: State, k: nat)
  {
    s.rx.Wait? && |s.fates| == k
  }

  /** A step that decides arrival `k` as dropped for a full queue was made while waiting for it. */
  lemma DecidedWaiting(c: Config, s: State, t: Step, k: nat)
    requires Moves(c, s, t) && |s.fates| <= k < |Do(c, s, t).fates| && Do(c, s, t).fates[k] == QueueFull
    ensures Waiting(s, k)
  {
  }

  lemma BeganWaiting(c: Config, s: State, t: Step, k: nat)
    requires Moves(c, s, t) && PendingOk(s) && !Waiting(s, k) && Waiting(Do(c, s, t), k)
    ensures AtFull(c, s, k)
  {
    assert t == Full && Current(s) == s.arrivals[|s.fates|];
  }

  lemma {:induction false} RunMetFull(c: Config, s: State, steps: seq<Step>, n: State, k: nat)
    requires Inv(c, s) && Run(c, s, steps, n) && |s.fates| <= k < |n.fates| && n.fates[k] == QueueFull
    requires !Waiting(s, k)
    ensures MetFull(c, s, steps, k)
    decreases |steps|
  {
    if steps != [] {
      var t, s' := steps[0], Do(c, s, steps[0]);
      StepInv(c, s, t);
      RunFates(c, s', steps[1..], n);
      if Waiting(s', k) {
        BeganWaiting(c, s, t, k);
      } else if k < |s'.fates| {
        DecidedWaiting(c, s, t, k);
      } else {
        RunMetFull(c, s', steps[1..], n, k);
      }
    }
  }

  /** A datagram is dropped for a full queue only if its queue was full when its turn came. */
  lemma DroppedOnlyWhenFull(c: Config, steps: seq<Step>, s: State, k: nat)
    requires Proper(c) && Run(c, Init(c), steps, s) && k < |s.fates| && s.fates[k] == QueueFull
    ensures MetFull(c, Init(c), steps, k)
  {
    InitInv(c);
    RunMetFull(c, Init(c), steps, s, k);
  }

  /** Where there is room a datagram is sent on, whether it has had to wait for it or not. */
  lemma RoomIsTaken(c: Config, s: State)
    requires Inv(c, s) && (s.rx.Dispatch? || s.rx.Wait?) && s.rx.i < s.rx.n
    ensures |s.fates| < |s.arrivals| && Route(c, s.arrivals[|s.fates|]) < |s.queues|
    ensures var d := s.arrivals[|s.fates|];
            !d.trunc && d.bytes != [] && |s.queues[Route(c, d)]| < c.per ==>
              Enabled(c, s, Push) && Do(c, s, Push).fates == s.fates + [Sent]
  {
    assert Current(s) == s.arrivals[|s.fates|];
  }

  /** A processor is never held up: it can take what is queued, handle what it holds, and give the slot back. */
  lemma ProcessorsGoOn(c: Config, s: State, p: nat)
    requires Reachable(c, s) && p < c.procs
    ensures Shape(c, s)
    ensures s.hands[p].Idle? && s.queues[p] != [] ==> Enabled(c, s, Take(p))
    ensures s.hands[p].Holding? ==> Enabled(c, s, Handle(p))
    ensures s.hands[p].Finished? ==> Enabled(c, s, Return(p))
  {
    NeverBlocked(c, s);
  }

  // ── how the work is spread ────────────────────────────────────────────────

  /** Two datagrams go to one processor exactly when their shards agree modulo the number of processors. */
  lemma RouteByShard(c: Config, a: Datagram, b: Datagram)
    requires Proper(c)
    ensures Route(c, a) == Route(c, b) <==>
            (ShardOf(a.bytes, c.tee) as nat) % c.procs == (ShardOf(b.bytes, c.tee) as nat) % c.procs
  {
  }

  /** Every flow is spread as far as anything is: some sequence number of it goes wherever any datagram goes. */
  lemma FlowReachesProcessor(c: Config, head: seq<byte>, hashKey: uint64, tail: seq<byte>, d: Datagram)
    returns (seqNum: uint64)
    requires Proper(c) && |head| == 40 && (c.tee ==> head[..4] != [0x54, 0x45, 0x45, 0x31])
    ensures Route(c, Datagram(head + FlowKey(hashKey, seqNum) + tail, false)) == Route(c, d)
  {
    seqNum := FlowReachesShard(head, hashKey, tail, c.tee, ShardOf(d.bytes, c.tee));
  }
}
