/**
 Several sockets of one worker, each with a pipeline of its own, on one clock: what was
 read and what was handled, in the order it happened.
 */
module Sockets {
  import opened Shard
  import opened Pipeline
  import opened PipelineOrder
  import opened PipelineRuns

  /** The `id`th datagram read on a socket. */
  datatype Item = Item(socket: nat, id: nat)

  datatype Net = Net(ss: seq<State>, arrived: seq<Item>, handled: seq<Item>)

  datatype Move = Move(socket: nat, step: Step)

  ghost predicate CanMove(cs: seq<Config>, n: Net, m: Move)
  {
    |n.ss| == |cs| && m.socket < |cs| && Moves(cs[m.socket], n.ss[m.socket], m.step)
  }

  /** What a read adds to the log of reads. */
  function Items(socket: nat, from: nat, n: nat): (r: seq<Item>)
    ensures |r| == n && forall i :: 0 <= i < n ==> r[i] == Item(socket, from + i)
  {
    if n == 0 then [] else Items(socket, from, n - 1) + [Item(socket, from + n - 1)]
  }

  ghost function Made(cs: seq<Config>, n: Net, m: Move): Net
    requires CanMove(cs, n, m)
  {
    var k, s := m.socket, n.ss[m.socket];
    Net(n.ss[k := Do(cs[k], s, m.step)],
        if m.step.ReadBatch? then n.arrived + Items(k, |s.arrivals|, |m.step.ds|) else n.arrived,
        if m.step.Handle? then n.handled + [Item(k, s.hands[m.step.p].m.id)] else n.handled)
  }

  /** Making `moves` one after the other leads from `n` to `end`. */
  ghost predicate NetRun(cs: seq<Config>, n: Net, moves: seq<Move>, end: Net)
    decreases |moves|, 1
  {
    if moves == [] then n == end else NetMove(cs, n, moves, end)
  }

  ghost predicate NetMove(cs: seq<Config>, n: Net, moves: seq<Move>, end: Net)
    requires moves != []
    decreases |moves|, 0
  {
    CanMove(cs, n, moves[0]) && NetRun(cs, Made(cs, n, moves[0]), moves[1..], end)
  }

  ghost function Opened(cs: seq<Config>): Net
  {
    Net(seq(|cs|, i requires 0 <= i < |cs| => Init(cs[i])), [], [])
  }

  /** `u` comes somewhere before `v`. */
  ghost predicate Precedes(log: seq<Item>, u: Item, v: Item)
  {
    exists x, y :: 0 <= x < y < |log| && log[x] == u && log[y] == v
  }

  // ── one socket ────────────────────────────────────────────────────────────

  /** The log of reads has each socket's datagrams in the order of their numbers. */
  ghost predicate ReadsOk(n: Net)
  {
    && (forall x :: 0 <= x < |n.arrived| ==>
          n.arrived[x].socket < |n.ss| && n.arrived[x].id < |n.ss[n.arrived[x].socket].arrivals|)
    && (forall x, y :: 0 <= x < y < |n.arrived| && n.arrived[x].socket == n.arrived[y].socket ==>
          n.arrived[x].id < n.arrived[y].id)
  }

  /** The datagram was handled by the processor of its lane. */
  ghost predicate ByLane(cs: seq<Config>, ss: seq<State>, u: Item)
  {
    && u.socket < |cs| && |ss| == |cs| && Shape(cs[u.socket], ss[u.socket]) && u.id < |ss[u.socket].arrivals|
    && var p := Route(cs[u.socket], ss[u.socket].arrivals[u.id]);
       p < cs[u.socket].procs && exists i :: 0 <= i < |ss[u.socket].done[p]| && ss[u.socket].done[p][i].id == u.id
  }

  ghost predicate SameLane(cs: seq<Config>, ss: seq<State>, u: Item, v: Item)
    requires ByLane(cs, ss, u) && ByLane(cs, ss, v)
  {
    u.socket == v.socket &&
    Route(cs[u.socket], ss[u.socket].arrivals[u.id]) == Route(cs[v.socket], ss[v.socket].arrivals[v.id])
  }

  /** The log of handled datagrams has each lane's in the order of their numbers. */
  ghost predicate HandledOk(cs: seq<Config>, n: Net)
  {
    && (forall x :: 0 <= x < |n.handled| ==> ByLane(cs, n.ss, n.handled[x]))
    && (forall x, y :: 0 <= x < y < |n.handled| && SameLane(cs, n.ss, n.handled[x], n.handled[y]) ==>
          n.handled[x].id < n.handled[y].id)
  }

  ghost predicate AllProper(cs: seq<Config>)
  {
    forall k :: 0 <= k < |cs| ==> Proper(cs[k])
  }

  ghost predicate NetInv(cs: seq<Config>, n: Net)
  {
    && |n.ss| == |cs| && (forall k :: 0 <= k < |cs| ==> Inv(cs[k], n.ss[k]))
    && ReadsOk(n) && HandledOk(cs, n)
  }

  /** A step of a pipeline only adds to what it has read and handled. */
  lemma StepGrows(c: Config, s: State, t: Step)
    requires Moves(c, s, t) && Shape(c, Do(c, s, t))
    ensures s.arrivals <= Do(c, s, t).arrivals
    ensures forall p :: 0 <= p < c.procs ==> s.done[p] <= Do(c, s, t).done[p]
  {
  }

  lemma MoveReadsOk(cs: seq<Config>, n: Net, m: Move)
    requires CanMove(cs, n, m) && ReadsOk(n) && Shape(cs[m.socket], Do(cs[m.socket], n.ss[m.socket], m.step))
    ensures ReadsOk(Made(cs, n, m))
  {
    var e := Made(cs, n, m);
    StepGrows(cs[m.socket], n.ss[m.socket], m.step);
    forall x | 0 <= x < |e.arrived|
      ensures e.arrived[x].socket < |e.ss| && e.arrived[x].id < |e.ss[e.arrived[x].socket].arrivals|
    {
      if x < |n.arrived| { assert e.arrived[x] == n.arrived[x]; }
    }
  }

  /** What was handled by its lane stays so. */
  lemma ByLaneStays(cs: seq<Config>, n: Net, m: Move, u: Item)
    requires CanMove(cs, n, m) && Shape(cs[m.socket], Do(cs[m.socket], n.ss[m.socket], m.step)) && ByLane(cs, n.ss, u)
    ensures ByLane(cs, Made(cs, n, m).ss, u)
    ensures Made(cs, n, m).ss[u.socket].arrivals[u.id] == n.ss[u.socket].arrivals[u.id]
  {
    StepGrows(cs[m.socket], n.ss[m.socket], m.step);
    var p := Route(cs[u.socket], n.ss[u.socket].arrivals[u.id]);
    var i :| 0 <= i < |n.ss[u.socket].done[p]| && n.ss[u.socket].done[p][i].id == u.id;
    assert Made(cs, n, m).ss[u.socket].done[p][i] == n.ss[u.socket].done[p][i];
  }

  /** What a processor is about to handle is of its lane, and later than all it has handled. */
  lemma InHandIsNext(c: Config, s: State, p: nat)
    requires Inv(c, s) && p < c.procs && s.hands[p].Holding?
    ensures var id := s.hands[p].m.id;
            && id < |s.fates| && Route(c, s.arrivals[id]) == p
            && forall i :: 0 <= i < |s.done[p]| ==> s.done[p][i].id < id
  {
    SentIncreasing(c, s.arrivals, s.fates, p);
    var lane := Lane(s.done[p], s.hands[p], s.queues[p]);
    assert lane[|s.done[p]|] == s.hands[p].m.id && lane[|s.done[p]|] in lane;
    forall i | 0 <= i < |s.done[p]| ensures lane[i] == s.done[p][i].id {}
  }

  lemma HandleIsLast(cs: seq<Config>, n: Net, k: nat, p: nat)
    requires CanMove(cs, n, Move(k, Handle(p))) && Inv(cs[k], n.ss[k]) && HandledOk(cs, n)
    requires Shape(cs[k], Do(cs[k], n.ss[k], Handle(p)))
    ensures var e, u := Made(cs, n, Move(k, Handle(p))), Item(k, n.ss[k].hands[p].m.id);
            && ByLane(cs, e.ss, u)
            && forall x :: 0 <= x < |n.handled| && ByLane(cs, e.ss, n.handled[x])
                           && SameLane(cs, e.ss, n.handled[x], u) ==>
                 n.handled[x].id < u.id
  {
    var e, u := Made(cs, n, Move(k, Handle(p))), Item(k, n.ss[k].hands[p].m.id);
    InHandIsNext(cs[k], n.ss[k], p);
    assert e.ss[k].done[p][|n.ss[k].done[p]|].id == u.id;
    forall x | 0 <= x < |n.handled| && ByLane(cs, e.ss, n.handled[x]) && SameLane(cs, e.ss, n.handled[x], u)
      ensures n.handled[x].id < u.id
    {
      assert ByLane(cs, n.ss, n.handled[x]);
    }
  }

  lemma AllByLane(cs: seq<Config>, n: Net, m: Move)
    requires CanMove(cs, n, m) && HandledOk(cs, n) && Shape(cs[m.socket], Do(cs[m.socket], n.ss[m.socket], m.step))
    ensures var ss := Made(cs, n, m).ss;
            forall x :: 0 <= x < |n.handled| ==>
              && ByLane(cs, ss, n.handled[x])
              && ss[n.handled[x].socket].arrivals[n.handled[x].id]
                 == n.ss[n.handled[x].socket].arrivals[n.handled[x].id]
  {
    var ss := Made(cs, n, m).ss;
    forall x | 0 <= x < |n.handled|
      ensures ByLane(cs, ss, n.handled[x])
      ensures ss[n.handled[x].socket].arrivals[n.handled[x].id] == n.ss[n.handled[x].socket].arrivals[n.handled[x].id]
    {
      ByLaneStays(cs, n, m, n.handled[x]);
    }
  }

  /** Appending an item later than all of its lane keeps the log in order. */
  lemma HandledSnoc(cs: seq<Config>, ss: seq<State>, handled: seq<Item>, u: Item)
    requires forall x :: 0 <= x < |handled| ==> ByLane(cs, ss, handled[x])
    requires forall x, y :: 0 <= x < y < |handled| && SameLane(cs, ss, handled[x], handled[y]) ==>
               handled[x].id < handled[y].id
    requires ByLane(cs, ss, u)
    requires forall x :: 0 <= x < |handled| && SameLane(cs, ss, handled[x], u) ==> handled[x].id < u.id
    ensures HandledOk(cs, Net(ss, [], handled + [u]))
  {
  }

  lemma MoveHandledOk(cs: seq<Config>, n: Net, m: Move)
    requires CanMove(cs, n, m) && Inv(cs[m.socket], n.ss[m.socket]) && HandledOk(cs, n)
    requires Shape(cs[m.socket], Do(cs[m.socket], n.ss[m.socket], m.step))
    ensures HandledOk(cs, Made(cs, n, m))
  {
    var e := Made(cs, n, m);
    AllByLane(cs, n, m);
    forall x, y | 0 <= x < y < |n.handled| && SameLane(cs, e.ss, n.handled[x], n.handled[y])
      ensures n.handled[x].id < n.handled[y].id
    {
      assert SameLane(cs, n.ss, n.handled[x], n.handled[y]);
    }
    if m.step.Handle? {
      HandleIsLast(cs, n, m.socket, m.step.p);
      HandledSnoc(cs, e.ss, n.handled, Item(m.socket, n.ss[m.socket].hands[m.step.p].m.id));
    }
  }

  lemma MoveSockets(cs: seq<Config>, n: Net, m: Move)
    requires CanMove(cs, n, m) && forall k :: 0 <= k < |cs| ==> Inv(cs[k], n.ss[k])
    ensures forall k :: 0 <= k < |cs| ==> Inv(cs[k], Made(cs, n, m).ss[k])
  {
    var e := Made(cs, n, m);
    forall k | 0 <= k < |cs| ensures Inv(cs[k], e.ss[k]) {
      if k == m.socket { PipelineRuns.StepInv(cs[k], n.ss[k], m.step); } else { assert e.ss[k] == n.ss[k]; }
    }
  }

  lemma MoveInv(cs: seq<Config>, n: Net, m: Move)
    requires CanMove(cs, n, m) && NetInv(cs, n)
    ensures NetInv(cs, Made(cs, n, m))
  {
    MoveSockets(cs, n, m);
    assert Inv(cs[m.socket], Made(cs, n, m).ss[m.socket]);
    MoveReadsOk(cs, n, m);
    MoveHandledOk(cs, n, m);
  }

  lemma {:induction false} NetRunInv(cs: seq<Config>, n: Net, moves: seq<Move>, end: Net)
    requires NetInv(cs, n) && NetRun(cs, n, moves, end)
    ensures NetInv(cs, end)
    decreases |moves|
  {
    if moves != [] {
      assert NetMove(cs, n, moves, end);
      MoveInv(cs, n, moves[0]);
      NetRunInv(cs, Made(cs, n, moves[0]), moves[1..], end);
    }
  }

  lemma OpenedInv(cs: seq<Config>)
    requires AllProper(cs)
    ensures NetInv(cs, Opened(cs))
  {
    forall k | 0 <= k < |cs| ensures Inv(cs[k], Opened(cs).ss[k]) { InitInv(cs[k]); }
  }

  /** The datagram of an item. */
  ghost function DataOf(n: Net, u: Item): Datagram
    requires u.socket < |n.ss| && u.id < |n.ss[u.socket].arrivals|
  {
    n.ss[u.socket].arrivals[u.id]
  }

  lemma LanesInOrder(cs: seq<Config>, n: Net, u: Item, v: Item)
    requires HandledOk(cs, n) && u in n.handled && v in n.handled && u.socket == v.socket && u.id < v.id
    requires ByLane(cs, n.ss, u) && ByLane(cs, n.ss, v) && Proper(cs[u.socket])
    requires KeyOf(DataOf(n, u).bytes, cs[u.socket].tee) == KeyOf(DataOf(n, v).bytes, cs[u.socket].tee)
    ensures Precedes(n.handled, u, v)
  {
    SameKeySameRoute(cs[u.socket], DataOf(n, u), DataOf(n, v));
    var x :| 0 <= x < |n.handled| && n.handled[x] == u;
    var y :| 0 <= y < |n.handled| && n.handled[y] == v;
    assert SameLane(cs, n.ss, n.handled[y], n.handled[x]);
  }

  lemma LogsInOrder(cs: seq<Config>, n: Net, u: Item, v: Item)
    requires ReadsOk(n) && HandledOk(cs, n) && AllProper(cs) && |cs| == |n.ss|
    requires u in n.handled && v in n.handled && Precedes(n.arrived, u, v) && u.socket == v.socket
    ensures u.socket < |cs| && u.id < |n.ss[u.socket].arrivals| && v.id < |n.ss[v.socket].arrivals|
    ensures KeyOf(DataOf(n, u).bytes, cs[u.socket].tee) == KeyOf(DataOf(n, v).bytes, cs[u.socket].tee) ==>
              Precedes(n.handled, u, v)
  {
    assert ByLane(cs, n.ss, u) && ByLane(cs, n.ss, v);
    var x, y :| 0 <= x < y < |n.arrived| && n.arrived[x] == u && n.arrived[y] == v;
    assert u.id < v.id;
    if KeyOf(DataOf(n, u).bytes, cs[u.socket].tee) == KeyOf(DataOf(n, v).bytes, cs[u.socket].tee) {
      LanesInOrder(cs, n, u, v);
    }
  }

  /**
   On one socket, datagrams with the same flow key are handled in the order they were
   read, whatever the other sockets do.
   */
  lemma OneSocketInOrder(cs: seq<Config>, moves: seq<Move>, n: Net, u: Item, v: Item)
    requires AllProper(cs) && NetRun(cs, Opened(cs), moves, n)
    requires u in n.handled && v in n.handled && Precedes(n.arrived, u, v) && u.socket == v.socket
    ensures u.socket < |cs| == |n.ss| && u.id < |n.ss[u.socket].arrivals| && v.id < |n.ss[v.socket].arrivals|
    ensures KeyOf(DataOf(n, u).bytes, cs[u.socket].tee) == KeyOf(DataOf(n, v).bytes, cs[u.socket].tee) ==>
              Precedes(n.handled, u, v)
  {
    OpenedInv(cs);
    NetRunInv(cs, Opened(cs), moves, n);
    LogsInOrder(cs, n, u, v);
  }
}
