/** Two sockets keep no order between them: the run that shows it, and the exact condition. */
module CrossSockets {
  import opened Shard
  import opened Slots
  import opened Pipeline
  import opened PipelineRuns
  import opened Sockets

  // ── one pipeline, alone ───────────────────────────────────────────────────

  lemma {:induction false} RunThen(c: Config, s: State, xs: seq<Step>, t: State, ys: seq<Step>, u: State)
    requires Run(c, s, xs, t) && Run(c, t, ys, u)
    ensures Run(c, s, xs + ys, u)
    decreases |xs|
  {
    if xs == [] {
      assert xs + ys == ys;
    } else {
      assert (xs + ys)[1..] == xs[1..] + ys;
      RunThen(c, Do(c, s, xs[0]), xs[1..], t, ys, u);
    }
  }

  lemma RunOne(c: Config, s: State, t: Step)
    requires Moves(c, s, t)
    ensures Run(c, s, [t], Do(c, s, t))
  {
    assert [t][1..] == [];
  }

  /** Steps that read and handle nothing. */
  predicate Quiet(steps: seq<Step>)
  {
    forall t :: t in steps ==> !t.ReadBatch? && !t.Handle?
  }

  /** The receiver with `k` slots in its batch. */
  function Filled(c: Config, k: nat): State
    requires k <= RECV_BATCH <= c.total
  {
    Init(c).(free := seq(c.total - k, i => i + k), batch := seq(k, i => i),
             rx := if k == RECV_BATCH then Poll else Fill(k))
  }

  lemma FilledMoves(c: Config, k: nat)
    requires Proper(c) && k < RECV_BATCH <= c.total
    ensures Moves(c, Filled(c, k), FillOne) && Do(c, Filled(c, k), FillOne) == Filled(c, k + 1)
  {
    InitShape(c);
    var s := Filled(c, k);
    assert s.free[1..] == Filled(c, k + 1).free && s.batch + [s.free[0]] == Filled(c, k + 1).batch;
  }

  lemma {:induction false} FillRun(c: Config, k: nat) returns (steps: seq<Step>)
    requires Proper(c) && k <= RECV_BATCH <= c.total
    ensures Run(c, Filled(c, k), steps, Filled(c, RECV_BATCH)) && Quiet(steps)
    decreases RECV_BATCH - k
  {
    if k == RECV_BATCH {
      steps := [];
    } else {
      FilledMoves(c, k);
      RunOne(c, Filled(c, k), FillOne);
      var rest := FillRun(c, k + 1);
      RunThen(c, Filled(c, k), [FillOne], Filled(c, k + 1), rest, Filled(c, RECV_BATCH));
      steps := [FillOne] + rest;
    }
  }

  /** The receiver about to read for the first time. */
  function Waiting(c: Config): State
    requires RECV_BATCH <= c.total
  {
    Filled(c, RECV_BATCH).(rx := Read)
  }

  lemma WaitingShape(c: Config)
    requires Proper(c)
    ensures RECV_BATCH <= c.total && Shape(c, Filled(c, RECV_BATCH)) && Shape(c, Waiting(c))
  {
    InitShape(c);
    assert c.per * c.procs >= 0;
  }

  lemma WaitingRun(c: Config) returns (steps: seq<Step>)
    requires Proper(c)
    ensures RECV_BATCH <= c.total && Run(c, Init(c), steps, Waiting(c)) && Quiet(steps)
  {
    WaitingShape(c);
    assert Filled(c, 0) == Init(c) by {
      assert Filled(c, 0).free == Init(c).free && Filled(c, 0).batch == [];
    }
    var fills := FillRun(c, 0);
    RunOne(c, Filled(c, RECV_BATCH), Check);
    RunThen(c, Init(c), fills, Filled(c, RECV_BATCH), [Check], Waiting(c));
    steps := fills + [Check];
  }

  /** One datagram read, nothing decided yet, and its lane empty. */
  ghost predicate JustRead(c: Config, s: State, d: Datagram)
  {
    && Shape(c, s) && s.rx == Dispatch(0, 1) && s.arrivals == [d] && s.fates == [] && Current(s) == d
    && Route(c, d) < c.procs && s.queues[Route(c, d)] == [] && s.hands[Route(c, d)] == Idle
  }

  lemma WaitingReads(c: Config, d: Datagram)
    requires Proper(c)
    ensures RECV_BATCH <= c.total && Moves(c, Waiting(c), ReadBatch([d]))
    ensures JustRead(c, Do(c, Waiting(c), ReadBatch([d])), d)
  {
    WaitingShape(c);
    StepShape(c, Waiting(c), ReadBatch([d]));
    assert [d][..0] == [];
  }

  /** The datagram of a lane in the hand of its processor. */
  ghost predicate InHandOf(c: Config, s: State, d: Datagram)
  {
    && Shape(c, s) && Route(c, d) < c.procs && s.arrivals == [d]
    && s.hands[Route(c, d)].Holding? && s.hands[Route(c, d)].m.id == 0
  }

  lemma HoldRun(c: Config, g: State, d: Datagram) returns (steps: seq<Step>, s: State)
    requires Proper(c) && !Skipped(d) && JustRead(c, g, d)
    ensures Run(c, g, steps, s) && Quiet(steps) && InHandOf(c, s, d)
  {
    var p := Route(c, d);
    RunOne(c, g, Push);
    var q := Do(c, g, Push);
    StepShape(c, g, Push);
    assert q.queues[p] == [Msg(g.batch[0], 0)];
    RunOne(c, q, Take(p));
    s := Do(c, q, Take(p));
    StepShape(c, q, Take(p));
    RunThen(c, g, [Push], q, [Take(p)], s);
    steps := [Push] + [Take(p)];
  }

  // ── one pipeline among others ─────────────────────────────────────────────

  lemma {:induction false} NetRunThen(cs: seq<Config>, n: Net, xs: seq<Move>, m: Net, ys: seq<Move>, e: Net)
    requires NetRun(cs, n, xs, m) && NetRun(cs, m, ys, e)
    ensures NetRun(cs, n, xs + ys, e)
    decreases |xs|
  {
    if xs == [] {
      assert xs + ys == ys;
    } else {
      assert NetMove(cs, n, xs, m);
      var next := Made(cs, n, xs[0]);
      assert (xs + ys)[0] == xs[0] && (xs + ys)[1..] == xs[1..] + ys;
      NetRunThen(cs, next, xs[1..], m, ys, e);
      assert NetMove(cs, n, xs + ys, e);
    }
  }

  lemma NetRunOne(cs: seq<Config>, n: Net, m: Move)
    requires CanMove(cs, n, m)
    ensures NetRun(cs, n, [m], Made(cs, n, m))
  {
    assert [m][1..] == [];
    assert NetMove(cs, n, [m], Made(cs, n, m));
  }

  /** The network with one socket's pipeline replaced. */
  function At(n: Net, k: nat, s: State): Net
    requires k < |n.ss|
  {
    n.(ss := n.ss[k := s])
  }

  /** A quiet run of one pipeline is a run of the network that logs nothing. */
  lemma {:induction false} QuietRun(cs: seq<Config>, n: Net, k: nat, steps: seq<Step>, s: State)
    returns (moves: seq<Move>)
    requires k < |cs| == |n.ss| && Run(cs[k], n.ss[k], steps, s) && Quiet(steps)
    ensures NetRun(cs, n, moves, At(n, k, s))
    decreases |steps|
  {
    if steps == [] {
      moves := [];
      assert At(n, k, s) == n;
    } else {
      var m := Move(k, steps[0]);
      var next := Made(cs, n, m);
      assert steps[0] in steps;
      assert next == At(n, k, Do(cs[k], n.ss[k], steps[0]));
      NetRunOne(cs, n, m);
      var rest := QuietRun(cs, next, k, steps[1..], s);
      assert At(next, k, s) == At(n, k, s);
      NetRunThen(cs, n, [m], next, rest, At(n, k, s));
      moves := [m] + rest;
    }
  }

  /** Socket `k`, not used so far, reads its first datagram. */
  lemma ReadRun(cs: seq<Config>, n: Net, k: nat, d: Datagram) returns (moves: seq<Move>, e: Net)
    requires k < |cs| == |n.ss| && Proper(cs[k]) && n.ss[k] == Init(cs[k])
    ensures NetRun(cs, n, moves, e) && OnlyAt(n, k, e) && JustRead(cs[k], e.ss[k], d)
    ensures e.arrived == n.arrived + [Item(k, 0)] && e.handled == n.handled
  {
    var steps := WaitingRun(cs[k]);
    var first := QuietRun(cs, n, k, steps, Waiting(cs[k]));
    var mid, m := At(n, k, Waiting(cs[k])), Move(k, ReadBatch([d]));
    WaitingReads(cs[k], d);
    NetRunOne(cs, mid, m);
    e := Made(cs, mid, m);
    assert Items(k, 0, 1) == [Item(k, 0)];
    NetRunThen(cs, n, first, mid, [m], e);
    moves := first + [m];
  }

  /** Only socket `k` may have changed. */
  ghost predicate OnlyAt(n: Net, k: nat, e: Net)
  {
    |e.ss| == |n.ss| && k < |n.ss| && forall j :: 0 <= j < |n.ss| && j != k ==> e.ss[j] == n.ss[j]
  }

  lemma HandleOneRun(cs: seq<Config>, n: Net, k: nat, d: Datagram) returns (moves: seq<Move>, e: Net)
    requires k < |cs| == |n.ss| && ValidConfig(cs[k]) && InHandOf(cs[k], n.ss[k], d)
    ensures NetRun(cs, n, moves, e) && OnlyAt(n, k, e) && e.ss[k].arrivals == [d]
    ensures e.arrived == n.arrived && e.handled == n.handled + [Item(k, 0)]
  {
    var m := Move(k, Handle(Route(cs[k], d)));
    NetRunOne(cs, n, m);
    e := Made(cs, n, m);
    moves := [m];
  }

  /** Socket `k` handles the one datagram it has read. */
  lemma HandleRun(cs: seq<Config>, n: Net, k: nat, d: Datagram) returns (moves: seq<Move>, e: Net)
    requires k < |cs| == |n.ss| && Proper(cs[k]) && !Skipped(d) && JustRead(cs[k], n.ss[k], d)
    ensures NetRun(cs, n, moves, e) && OnlyAt(n, k, e) && e.ss[k].arrivals == [d]
    ensures e.arrived == n.arrived && e.handled == n.handled + [Item(k, 0)]
  {
    var steps, s := HoldRun(cs[k], n.ss[k], d);
    var first := QuietRun(cs, n, k, steps, s);
    var last;
    last, e := HandleOneRun(cs, At(n, k, s), k, d);
    NetRunThen(cs, n, first, At(n, k, s), last, e);
    moves := first + last;
  }

  lemma ReadBothRun(cs: seq<Config>, n: Net, p: nat, x: Datagram, q: nat, y: Datagram)
    returns (moves: seq<Move>, e: Net)
    requires p < |cs| == |n.ss| && q < |cs| && p != q && Proper(cs[p]) && Proper(cs[q])
    requires n.ss[p] == Init(cs[p]) && n.ss[q] == Init(cs[q])
    ensures NetRun(cs, n, moves, e) && |e.ss| == |cs|
    ensures JustRead(cs[p], e.ss[p], x) && JustRead(cs[q], e.ss[q], y)
    ensures e.arrived == n.arrived + [Item(p, 0), Item(q, 0)] && e.handled == n.handled
  {
    var a, mid := ReadRun(cs, n, p, x);
    var b;
    b, e := ReadRun(cs, mid, q, y);
    NetRunThen(cs, n, a, mid, b, e);
    moves := a + b;
  }

  lemma HandleBothRun(cs: seq<Config>, n: Net, p: nat, x: Datagram, q: nat, y: Datagram)
    returns (moves: seq<Move>, e: Net)
    requires p < |cs| == |n.ss| && q < |cs| && p != q && Proper(cs[p]) && Proper(cs[q]) && !Skipped(x) && !Skipped(y)
    requires JustRead(cs[p], n.ss[p], x) && JustRead(cs[q], n.ss[q], y)
    ensures NetRun(cs, n, moves, e) && |e.ss| == |cs| && e.ss[p].arrivals == [x] && e.ss[q].arrivals == [y]
    ensures e.arrived == n.arrived && e.handled == n.handled + [Item(q, 0), Item(p, 0)]
  {
    var a, mid := HandleRun(cs, n, q, y);
    assert mid.ss[p] == n.ss[p];
    var b;
    b, e := HandleRun(cs, mid, p, x);
    NetRunThen(cs, n, a, mid, b, e);
    moves := a + b;
  }

  /**
   For any two sockets and any two datagrams worth handling, same key or not: the one read
   first, on one socket, may be handled after the one read second, on the other.
   */
  lemma OvertakenRun(cs: seq<Config>, p: nat, x: Datagram, q: nat, y: Datagram) returns (moves: seq<Move>, n: Net)
    requires AllProper(cs) && p < |cs| && q < |cs| && p != q && !Skipped(x) && !Skipped(y)
    ensures NetRun(cs, Opened(cs), moves, n) && |n.ss| == |cs|
    ensures n.ss[p].arrivals == [x] && n.ss[q].arrivals == [y]
    ensures n.arrived == [Item(p, 0), Item(q, 0)] && n.handled == [Item(q, 0), Item(p, 0)]
  {
    var first, mid := ReadBothRun(cs, Opened(cs), p, x, q, y);
    var last;
    last, n := HandleBothRun(cs, mid, p, x, q, y);
    NetRunThen(cs, Opened(cs), first, mid, last, n);
    moves := first + last;
  }

  // ── the exact condition ───────────────────────────────────────────────────

  /** In this outcome `x`, read first on socket `p`, and `y`, on `q`, were handled in that order. */
  ghost predicate KeepsOrder(n: Net, p: nat, x: Datagram, q: nat, y: Datagram, i: nat, j: nat)
  {
    && p < |n.ss| && q < |n.ss| && i < |n.ss[p].arrivals| && j < |n.ss[q].arrivals|
    && n.ss[p].arrivals[i] == x && n.ss[q].arrivals[j] == y && Precedes(n.arrived, Item(p, i), Item(q, j))
    && Item(p, i) in n.handled && Item(q, j) in n.handled
    ==> Precedes(n.handled, Item(p, i), Item(q, j))
  }

  /** In every run, wherever the two are read in this order and both handled, they are handled so. */
  ghost predicate AlwaysInOrder(cs: seq<Config>, p: nat, x: Datagram, q: nat, y: Datagram)
  {
    forall moves, n, i, j :: NetRun(cs, Opened(cs), moves, n) ==> KeepsOrder(n, p, x, q, y, i, j)
  }

  lemma OvertakenBreaks(n: Net, p: nat, x: Datagram, q: nat, y: Datagram)
    requires p < |n.ss| && q < |n.ss| && p != q && n.ss[p].arrivals == [x] && n.ss[q].arrivals == [y]
    requires n.arrived == [Item(p, 0), Item(q, 0)] && n.handled == [Item(q, 0), Item(p, 0)]
    ensures !KeepsOrder(n, p, x, q, y, 0, 0)
  {
    assert n.arrived[0] == Item(p, 0) && n.arrived[1] == Item(q, 0);
    assert n.handled[0] == Item(q, 0) && n.handled[1] == Item(p, 0);
  }

  /**
   Two datagrams of one flow key are handled in arrival order in every run if and only if
   they come in on one socket.
   */
  lemma OrderedIffOneSocket(cs: seq<Config>, p: nat, x: Datagram, q: nat, y: Datagram)
    requires AllProper(cs) && p < |cs| && q < |cs| && !Skipped(x) && !Skipped(y)
    requires KeyOf(x.bytes, cs[p].tee) == KeyOf(y.bytes, cs[q].tee)
    ensures AlwaysInOrder(cs, p, x, q, y) <==> p == q
  {
    if p == q {
      forall moves, n, i, j | NetRun(cs, Opened(cs), moves, n) ensures KeepsOrder(n, p, x, q, y, i, j) {
        var u, v := Item(p, i), Item(q, j);
        if u in n.handled && v in n.handled && Precedes(n.arrived, u, v) { OneSocketInOrder(cs, moves, n, u, v); }
      }
    } else {
      var moves, n := OvertakenRun(cs, p, x, q, y);
      OvertakenBreaks(n, p, x, q, y);
    }
  }
}
