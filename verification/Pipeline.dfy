/**
 The receive pipeline of one socket as a transition system: one receiver and several
 processors share a fixed set of slots through a free list, bounded FIFO queues and
 the receiver's batch, in every interleaving.
 */
module Pipeline {
  import opened Bytes
  import opened Shard
  import opened Slots

  const RECV_BATCH := 64
  const DEFAULT_QUEUE_DEPTH := 1024
  const DEFAULT_PROCS := 4

  /** `per` is the room in each of the `procs` queues; `route` picks one by a datagram's bytes. */
  datatype Config = Config(tee: bool, per: nat, procs: nat, total: nat, route: seq<byte> -> nat)

  /** The processor a datagram's shard falls to. */
  function ShardRoute(bytes: seq<byte>, tee: bool, procs: nat): (p: nat)
    requires procs >= 1
    ensures p < procs
  {
    if procs > 1 then (ShardOf(bytes, tee) as nat) % procs else 0
  }

  /** Values below 1 keep the defaults; the depth is split over the queues, rounding up. */
  function Configure(tee: bool, queueDepth: int, procs: int): (c: Config)
    ensures Proper(c) && c.tee == tee
    ensures c.procs == if procs >= 1 then procs else 4
    ensures var depth := if queueDepth >= 1 then queueDepth else 1024;
            depth <= c.per * c.procs < depth + c.procs
  {
    var d := if queueDepth < 1 then DEFAULT_QUEUE_DEPTH else queueDepth;
    var n := if procs < 1 then DEFAULT_PROCS else procs;
    var per := (d + n - 1) / n;
    Config(tee, per, n, per * n + n + RECV_BATCH, bytes => ShardRoute(bytes, tee, n))
  }

  /** What the steps need of a configuration. */
  ghost predicate ValidConfig(c: Config)
  {
    c.per >= 1 && c.procs >= 1 && forall bytes :: c.route(bytes) < c.procs
  }

  /** What a configured pipeline has: slots for every place, and the route of the shard. */
  ghost predicate Proper(c: Config)
  {
    && ValidConfig(c) && c.total == c.per * c.procs + c.procs + RECV_BATCH
    && forall bytes :: c.route(bytes) == ShardRoute(bytes, c.tee, c.procs)
  }

  datatype Datagram = Datagram(bytes: seq<byte>, trunc: bool)

  /** The queue a datagram goes to. */
  function Route(c: Config, d: Datagram): nat
  {
    c.route(d.bytes)
  }

  /** What the receiver decided about a datagram it read. */
  datatype Fate = Truncated | Empty | QueueFull | Sent | Abandoned

  /** A call of `handle`: which arrival, and the bytes it saw. */
  datatype Delivery = Delivery(id: nat, data: Datagram)

  /**
   Where the receiver is: filling its batch, checking for cancellation, reading,
   about to dispatch batch entry i of n, waiting for room for it, taking a fresh slot
   for it, waiting for the processors to exit, or returned.
   */
  datatype Rx =
    | Fill(k: nat) | Poll | Read
    | Dispatch(i: nat, n: nat) | Wait(i: nat, n: nat) | Refill(i: nat, n: nat)
    | Closing | Done

  datatype State = State(
    free: seq<nat>,
    batch: seq<nat>,
    queues: seq<seq<Msg>>,
    hands: seq<Hand>,
    mem: seq<Datagram>,            // what each slot's buffer holds
    rx: Rx,
    cancelled: bool,
    arrivals: seq<Datagram>,       // history: every datagram read, in order
    fates: seq<Fate>,              // history: the decisions taken so far, in the same order
    done: seq<seq<Delivery>>)      // history: what each processor handled

  function NoQueues(n: nat): seq<seq<Msg>> { seq(n, _ => []) }

  function NoHands(n: nat): seq<Hand> { seq(n, _ => Idle) }

  function Init(c: Config): State
  {
    State(seq(c.total, i => i), [], NoQueues(c.procs), NoHands(c.procs),
          seq(c.total, _ => Datagram([], false)), Fill(0), false, [], [], seq(c.procs, _ => []))
  }

  datatype Step =
    | FillOne | Check | ReadBatch(ds: seq<Datagram>) | ReadFails(fatal: bool)
    | Drop | Push | Full | TimeOut | Quit | TakeFree | EndBatch | Join
    | Take(p: nat) | Handle(p: nat) | Return(p: nat) | Exit(p: nat)
    | Cancel

  /** The state has the shape the program gives it. */
  ghost predicate Shape(c: Config, s: State)
  {
    && |s.queues| == c.procs && |s.hands| == c.procs && |s.done| == c.procs && |s.mem| == c.total
    && (forall p :: 0 <= p < c.procs ==> |s.queues[p]| <= c.per)
    && |s.fates| <= |s.arrivals|
    && (if s.rx.Fill? then s.rx.k < RECV_BATCH && |s.batch| == s.rx.k else |s.batch| == RECV_BATCH)
    && (s.rx.Dispatch? ==> s.rx.i <= s.rx.n <= RECV_BATCH && |s.arrivals| - |s.fates| == s.rx.n - s.rx.i)
    && (s.rx.Wait? ==> s.rx.i < s.rx.n <= RECV_BATCH && |s.arrivals| - |s.fates| == s.rx.n - s.rx.i)
    && (s.rx.Refill? ==> s.rx.i < s.rx.n <= RECV_BATCH && |s.arrivals| - |s.fates| == s.rx.n - s.rx.i - 1)
    && (!s.rx.Dispatch? && !s.rx.Wait? && !s.rx.Refill? ==> |s.fates| == |s.arrivals|)
    && (forall j :: 0 <= j < |s.batch| ==> s.batch[j] < c.total)
    && (forall j :: 0 <= j < |s.free| ==> s.free[j] < c.total)
    && (forall p, j :: 0 <= p < c.procs && 0 <= j < |s.queues[p]| ==> s.queues[p][j].slot < c.total)
    && (forall p :: 0 <= p < c.procs && (s.hands[p].Holding? || s.hands[p].Finished?) ==> s.hands[p].m.slot < c.total)
  }

  /** The datagram in the batch entry the receiver is at. */
  ghost function Current(s: State): Datagram
    requires (s.rx.Dispatch? || s.rx.Wait?) && s.rx.i < |s.batch| && s.batch[s.rx.i] < |s.mem|
  {
    s.mem[s.batch[s.rx.i]]
  }

  ghost predicate Dispatching(s: State)
  {
    (s.rx.Dispatch? || s.rx.Wait?) && s.rx.i < s.rx.n
  }

  predicate Skipped(d: Datagram) { d.trunc || d.bytes == [] }

  ghost predicate Enabled(c: Config, s: State, t: Step)
    requires ValidConfig(c) && Shape(c, s)
  {
    match t
    case FillOne => s.rx.Fill? && s.free != []
    case Check => s.rx.Poll?
    case ReadBatch(ds) => s.rx.Read? && 1 <= |ds| <= RECV_BATCH
    case ReadFails(_) => s.rx.Read?
    case Drop => s.rx.Dispatch? && s.rx.i < s.rx.n && Skipped(Current(s))
    case Push => Dispatching(s) && !Skipped(Current(s)) && |s.queues[Route(c, Current(s))]| < c.per
    case Full => s.rx.Dispatch? && s.rx.i < s.rx.n && !Skipped(Current(s)) && |s.queues[Route(c, Current(s))]| == c.per
    case TimeOut => s.rx.Wait?
    case Quit => s.rx.Wait? && s.cancelled
    case TakeFree => s.rx.Refill? && s.free != []
    case EndBatch => s.rx.Dispatch? && s.rx.i == s.rx.n
    case Join => s.rx.Closing? && forall p :: 0 <= p < c.procs ==> s.hands[p].Exited?
    case Take(p) => p < c.procs && s.hands[p].Idle? && s.queues[p] != []
    case Handle(p) => p < c.procs && s.hands[p].Holding?
    case Return(p) => p < c.procs && s.hands[p].Finished? && |s.free| < c.total
    case Exit(p) => p < c.procs && s.hands[p].Idle? && s.queues[p] == [] && s.rx.Closing?
    case Cancel => !s.cancelled
  }

  /** A read overwrites the first |ds| batch slots and nothing else. */
  ghost function Written(mem: seq<Datagram>, batch: seq<nat>, ds: seq<Datagram>): (m: seq<Datagram>)
    requires |ds| <= |batch| && forall j :: 0 <= j < |batch| ==> batch[j] < |mem|
    ensures |m| == |mem|
    decreases |ds|
  {
    if ds == [] then mem
    else Written(mem, batch, ds[..|ds| - 1])[batch[|ds| - 1] := ds[|ds| - 1]]
  }

  ghost function Do(c: Config, s: State, t: Step): State
    requires ValidConfig(c) && Shape(c, s) && Enabled(c, s, t)
  {
    match t
    case FillOne =>
      s.(free := s.free[1..], batch := s.batch + [s.free[0]],
         rx := if s.rx.k + 1 == RECV_BATCH then Poll else Fill(s.rx.k + 1))
    case Check => s.(rx := if s.cancelled then Closing else Read)
    case ReadBatch(ds) =>
      s.(mem := Written(s.mem, s.batch, ds), arrivals := s.arrivals + ds, rx := Dispatch(0, |ds|))
    case ReadFails(fatal) => s.(rx := if fatal then Closing else Poll)
    case Drop =>
      s.(fates := s.fates + [if Current(s).trunc then Truncated else Empty], rx := Dispatch(s.rx.i + 1, s.rx.n))
    case Push =>
      var p := Route(c, Current(s));
      s.(queues := s.queues[p := s.queues[p] + [Msg(s.batch[s.rx.i], |s.fates|)]],
         fates := s.fates + [Sent], rx := Refill(s.rx.i, s.rx.n))
    case Full => s.(rx := Wait(s.rx.i, s.rx.n))
    case TimeOut => s.(fates := s.fates + [QueueFull], rx := Dispatch(s.rx.i + 1, s.rx.n))
    case Quit => s.(fates := s.fates + seq(s.rx.n - s.rx.i, _ => Abandoned), rx := Closing)
    case TakeFree =>
      s.(free := s.free[1..], batch := s.batch[s.rx.i := s.free[0]], rx := Dispatch(s.rx.i + 1, s.rx.n))
    case EndBatch => s.(rx := Poll)
    case Join => s.(rx := Done)
    case Take(p) =>
      s.(hands := s.hands[p := Holding(s.queues[p][0])], queues := s.queues[p := s.queues[p][1..]])
    case Handle(p) =>
      var m := s.hands[p].m;
      s.(hands := s.hands[p := Finished(m)], done := s.done[p := s.done[p] + [Delivery(m.id, s.mem[m.slot])]])
    case Return(p) =>
      s.(hands := s.hands[p := Idle], free := s.free + [s.hands[p].m.slot])
    case Exit(p) => s.(hands := s.hands[p := Exited])
    case Cancel => s.(cancelled := true)
  }

  // ── every slot is in exactly one place ────────────────────────────────────

  /** The batch entries the receiver owns; while it takes a fresh slot one is not its own. */
  ghost function Owned(s: State): seq<nat>
    requires s.rx.Refill? ==> s.rx.i < |s.batch|
  {
    if s.rx.Refill? then Without(s.batch, s.rx.i) else s.batch
  }

  ghost function Everywhere(s: State): multiset<nat>
    requires s.rx.Refill? ==> s.rx.i < |s.batch|
  {
    Held(s.free, Owned(s), s.queues, s.hands)
  }

  ghost predicate Partitioned(c: Config, s: State)
    requires s.rx.Refill? ==> s.rx.i < |s.batch|
  {
    Everywhere(s) == AllSlots(c.total)
  }

  lemma InitShape(c: Config)
    requires Proper(c)
    ensures Shape(c, Init(c))
  {
  }

  /** A step of one of the processors. */
  predicate ByHand(t: Step)
  {
    t.Take? || t.Handle? || t.Return? || t.Exit?
  }

  lemma TakeShape(c: Config, s: State, p: nat)
    requires ValidConfig(c) && Shape(c, s) && Enabled(c, s, Take(p))
    ensures Shape(c, Do(c, s, Take(p)))
  {
    var n := Do(c, s, Take(p));
    forall q, j | 0 <= q < c.procs && 0 <= j < |n.queues[q]| ensures n.queues[q][j].slot < c.total {
      if q == p { assert n.queues[q][j] == s.queues[p][j + 1]; }
    }
  }

  lemma HandShape(c: Config, s: State, t: Step)
    requires ValidConfig(c) && Shape(c, s) && Enabled(c, s, t) && ByHand(t) && !t.Take?
    ensures Shape(c, Do(c, s, t))
  {
  }

  lemma PushShape(c: Config, s: State)
    requires ValidConfig(c) && Shape(c, s) && Enabled(c, s, Push)
    ensures Shape(c, Do(c, s, Push))
  {
  }

  lemma TakeFreeShape(c: Config, s: State, t: Step)
    requires ValidConfig(c) && Shape(c, s) && Enabled(c, s, t) && (t.FillOne? || t.TakeFree?)
    ensures Shape(c, Do(c, s, t))
  {
    var n := Do(c, s, t);
    forall j | 0 <= j < |n.free| ensures n.free[j] < c.total { assert n.free[j] == s.free[j + 1]; }
  }

  lemma RxShape(c: Config, s: State, t: Step)
    requires ValidConfig(c) && Shape(c, s) && Enabled(c, s, t)
    requires !ByHand(t) && !t.Push? && !t.FillOne? && !t.TakeFree?
    ensures Shape(c, Do(c, s, t))
  {
    var n := Do(c, s, t);
    assert n.free == s.free && n.batch == s.batch && n.queues == s.queues && n.hands == s.hands && n.done == s.done;
  }

  lemma StepShape(c: Config, s: State, t: Step)
    requires ValidConfig(c) && Shape(c, s) && Enabled(c, s, t)
    ensures Shape(c, Do(c, s, t))
  {
    if t.Take? {
      TakeShape(c, s, t.p);
    } else if ByHand(t) {
      HandShape(c, s, t);
    } else if t.Push? {
      PushShape(c, s);
    } else if t.FillOne? || t.TakeFree? {
      TakeFreeShape(c, s, t);
    } else {
      RxShape(c, s, t);
    }
  }

  lemma {:induction false} RangeSlots(n: nat)
    ensures multiset(seq(n, i => i)) == AllSlots(n)
  {
    if n > 0 {
      RangeSlots(n - 1);
      assert seq(n, i => i) == seq(n - 1, i => i) + [n - 1];
    }
  }

  lemma {:induction false} NothingQueued(n: nat)
    ensures InQueues(NoQueues(n)) == multiset{} && InHands(NoHands(n)) == multiset{}
  {
    if n > 0 {
      NothingQueued(n - 1);
      assert NoQueues(n)[1..] == NoQueues(n - 1);
      assert NoHands(n)[1..] == NoHands(n - 1);
    }
  }

  lemma InitPartitioned(c: Config)
    requires Proper(c)
    ensures Partitioned(c, Init(c))
  {
    RangeSlots(c.total);
    NothingQueued(c.procs);
  }

  ghost predicate Moves(c: Config, s: State, t: Step)
  {
    ValidConfig(c) && Shape(c, s) && Enabled(c, s, t)
  }

  lemma RxPartitioned(c: Config, s: State, t: Step)
    requires Moves(c, s, t) && (t.FillOne? || t.TakeFree? || t.Push?)
    ensures Everywhere(Do(c, s, t)) == Everywhere(s)
  {
    match t
    case FillOne => HeldFill(s.free, s.batch, s.queues, s.hands);
    case TakeFree => HeldRefill(s.free, s.batch, s.queues, s.hands, s.rx.i);
    case Push => HeldPush(s.free, s.batch, s.queues, s.hands, s.rx.i, Route(c, Current(s)), |s.fates|);
  }

  lemma TakePartitioned(c: Config, s: State, p: nat)
    requires Moves(c, s, Take(p))
    ensures Everywhere(Do(c, s, Take(p))) == Everywhere(s)
  {
    var n := Do(c, s, Take(p));
    assert n.free == s.free && Owned(n) == Owned(s);
    assert n.queues == s.queues[p := s.queues[p][1..]] && n.hands == s.hands[p := Holding(s.queues[p][0])];
    HeldTake(s.free, Owned(s), s.queues, s.hands, p);
  }

  lemma ReturnPartitioned(c: Config, s: State, p: nat)
    requires Moves(c, s, Return(p))
    ensures Everywhere(Do(c, s, Return(p))) == Everywhere(s)
  {
    var n := Do(c, s, Return(p));
    assert n.free == s.free + [s.hands[p].m.slot] && Owned(n) == Owned(s);
    assert n.queues == s.queues && n.hands == s.hands[p := Idle];
    HeldReturn(s.free, Owned(s), s.queues, s.hands, p);
  }

  lemma KeepPartitioned(c: Config, s: State, t: Step)
    requires Moves(c, s, t) && (t.Handle? || t.Exit?)
    ensures Everywhere(Do(c, s, t)) == Everywhere(s)
  {
    var h := if t.Handle? then Finished(s.hands[t.p].m) else Exited;
    HeldKeep(s.free, Owned(s), s.queues, s.hands, t.p, h);
    assert Do(c, s, t).hands == s.hands[t.p := h];
  }

  /** The steps that move no slot. */
  lemma StillPartitioned(c: Config, s: State, t: Step)
    requires Moves(c, s, t) && !ByHand(t) && !t.FillOne? && !t.TakeFree? && !t.Push?
    ensures Everywhere(Do(c, s, t)) == Everywhere(s)
  {
    var n := Do(c, s, t);
    assert n.free == s.free && n.batch == s.batch && n.queues == s.queues && n.hands == s.hands;
    assert n.rx == s.rx || (!n.rx.Refill? && !s.rx.Refill?);
  }

  /** No step loses or duplicates a slot. */
  lemma StepPartitioned(c: Config, s: State, t: Step)
    requires Moves(c, s, t)
    ensures Shape(c, Do(c, s, t)) && Everywhere(Do(c, s, t)) == Everywhere(s)
  {
    StepShape(c, s, t);
    if t.Take? {
      TakePartitioned(c, s, t.p);
    } else if t.Return? {
      ReturnPartitioned(c, s, t.p);
    } else if t.Handle? || t.Exit? {
      KeepPartitioned(c, s, t);
    } else if t.FillOne? || t.TakeFree? || t.Push? {
      RxPartitioned(c, s, t);
    } else {
      StillPartitioned(c, s, t);
    }
  }

  ghost predicate FreeListOk(c: Config, s: State)
    requires Shape(c, s)
  {
    && (s.rx.Fill? || s.rx.Refill? ==> s.free != [])
    && (forall p :: 0 <= p < c.procs && s.hands[p].Finished? ==> |s.free| < c.total)
  }

  /** By counting, the free list is never empty when the receiver needs it, nor full. */
  lemma FreeListSized(c: Config, s: State)
    requires Proper(c) && Shape(c, s) && Partitioned(c, s)
    ensures FreeListOk(c, s)
  {
    HeldCount(s.free, Owned(s), s.queues, s.hands, c.per, c.total);
  }
}
